/**
 * The login page: the mount-time check for an existing session, the login
 * handler, its role-based redirect table and its error messages.
 */
module Login {
  import opened Wrappers
  import opened Text
  import opened Entities
  import opened Session

  /** Where an existing session is sent when the page opens. */
  function SessionRedirect(role: string): (path: string)
    ensures role == SuperAdmin ==> path == "/super-admin/firm-management"
    ensures role == FirmAdmin ==> path == "/locations"
    ensures role != SuperAdmin && role != FirmAdmin ==> path == "/dashboard"
  {
    if role == SuperAdmin then "/super-admin/firm-management"
    else if role == FirmAdmin then "/locations"
    else "/dashboard"
  }

  /** Where a successful login is sent. */
  function LoginRedirect(role: string): (path: string)
    ensures role == SuperAdmin ==> path == "/dashboard/super-admin"
    ensures role == FirmAdmin ==> path == "/dashboard/firm-admin"
    ensures role != SuperAdmin && role != FirmAdmin ==> path == "/dashboard"
  {
    if role == SuperAdmin then "/dashboard/super-admin"
    else if role == FirmAdmin then "/dashboard/firm-admin"
    else "/dashboard"
  }

  /** The two tables agree only for roles other than the two admin roles. */
  lemma RedirectTablesDiffer(role: string)
    ensures SessionRedirect(role) == LoginRedirect(role) <==> role != SuperAdmin && role != FirmAdmin
    ensures StartsWith(SessionRedirect(role), "/") && StartsWith(LoginRedirect(role), "/")
  {
  }

  datatype SessionCheckOutcome =
      /** The login form, with an error when a session without a profile was ended. */
    | ShowForm(error: Option<string>, sessionDeleted: bool)
    | RedirectTo(path: string)

  const ProfileMissingOnSession := "Your user profile is missing or inaccessible. Please contact support."

  /**
   * `checkActiveSession`. No session (or any failure) shows the form with no
   * error; a session without a profile is ended and reported; otherwise the
   * browser goes to the role's page (the redirect callback is not used here).
   */
  function CheckActiveSession(lookup: ProfileLookup): (r: SessionCheckOutcome)
    ensures lookup.LookupFailed? ==> r == ShowForm(None, false)
    ensures lookup.LookupDone? && lookup.documents == [] ==> r == ShowForm(Some(ProfileMissingOnSession), true)
    ensures lookup.LookupDone? && lookup.documents != [] ==> r == RedirectTo(SessionRedirect(lookup.documents[0].role))
  {
    match lookup
    case LookupFailed => ShowForm(None, false)
    case LookupDone(docs) =>
      if docs == [] then ShowForm(Some(ProfileMissingOnSession), true)
      else RedirectTo(SessionRedirect(docs[0].role))
  }

  const SessionActiveMarker := "Creation of a session is prohibited when a session is active"
  const AlreadyLoggedIn := "You are already logged in. Redirecting..."

  /** The message shown (and passed to `onLoginError`) for an error thrown while logging in. */
  function LoginErrorText(err: BackendError): (r: string)
    ensures r != ""
    ensures err.code == 400 && Contains(err.message, SessionActiveMarker) ==> r == AlreadyLoggedIn
    ensures !(err.code == 400 && Contains(err.message, SessionActiveMarker)) && err.code == 401 ==>
      r == "Invalid email or password."
    ensures !(err.code == 400 && Contains(err.message, SessionActiveMarker)) && err.code == 429 ==>
      r == "Too many login attempts. Please try again later."
    ensures !(err.code == 400 && Contains(err.message, SessionActiveMarker)) && err.code != 401 && err.code != 429 &&
            Contains(err.message, "Network request failed") ==>
      r == "Network error. Please check your internet connection."
    ensures !(err.code == 400 && Contains(err.message, SessionActiveMarker)) && err.code != 401 && err.code != 429 &&
            !Contains(err.message, "Network request failed") ==>
      r == (if err.message == "" then "An unexpected error occurred." else err.message)
  {
    if err.code == 400 && Contains(err.message, SessionActiveMarker) then AlreadyLoggedIn
    else if err.code == 401 then "Invalid email or password."
    else if err.code == 429 then "Too many login attempts. Please try again later."
    else if Contains(err.message, "Network request failed") then "Network error. Please check your internet connection."
    else if err.message == "" then "An unexpected error occurred."
    else err.message
  }

  /** The two steps of a login: creating the session and reading the profile; either may throw. */
  datatype LoginResult = Threw(err: BackendError) | ProfilesRead(documents: seq<Profile>)

  datatype Navigation = ViaCallback(path: string) | ViaLocation(path: string)

  datatype LoginOutcome =
      /** `message` is both shown and passed to `onLoginError`. */
    | LoginRejected(message: string, sessionDeleted: bool, recheckSession: bool)
      /** `onLoginSuccess(role, firmId)`, then the navigation. */
    | LoggedIn(role: string, firmId: Option<string>, navigation: Navigation)

  const ProfileMissingAfterLogin := "User profile not found. Please contact support."

  /** `handleLogin`: `hasRedirect` says whether the page was given an `onRedirect` callback. */
  function HandleLogin(result: LoginResult, hasRedirect: bool): (r: LoginOutcome)
    ensures r.LoggedIn? <==> result.ProfilesRead? && result.documents != []
    ensures r.LoggedIn? ==>
      var p := result.documents[0];
      r.role == p.role && r.firmId == p.firmId &&
      r.navigation == (if hasRedirect then ViaCallback(LoginRedirect(p.role)) else ViaLocation(LoginRedirect(p.role)))
    ensures result.ProfilesRead? && result.documents == [] ==> r == LoginRejected(ProfileMissingAfterLogin, true, false)
    ensures result.Threw? ==> r.LoginRejected? && r.message == LoginErrorText(result.err) && !r.sessionDeleted
    ensures r.LoginRejected? && r.recheckSession <==>
      result.Threw? && result.err.code == 400 && Contains(result.err.message, SessionActiveMarker)
  {
    match result
    case Threw(err) =>
      LoginRejected(LoginErrorText(err), false, err.code == 400 && Contains(err.message, SessionActiveMarker))
    case ProfilesRead(docs) =>
      if docs == [] then LoginRejected(ProfileMissingAfterLogin, true, false)
      else
        var path := LoginRedirect(docs[0].role);
        LoggedIn(docs[0].role, docs[0].firmId, if hasRedirect then ViaCallback(path) else ViaLocation(path))
  }

  /**
   * Logging in while a session is active is reported and answered with a
   * session check, which sends a user with a profile to their page.
   */
  lemma ActiveSessionRecovers(err: BackendError, lookup: ProfileLookup)
    requires err.code == 400 && Contains(err.message, SessionActiveMarker)
    requires lookup.LookupDone? && lookup.documents != []
    ensures HandleLogin(Threw(err), false) == LoginRejected(AlreadyLoggedIn, false, true)
    ensures CheckActiveSession(lookup).RedirectTo?
  {
  }

  /** A profile-less account never gets past the login page, whether it has a session already or has just logged in. */
  lemma ProfileRequired(hasRedirect: bool)
    ensures !HandleLogin(ProfilesRead([]), hasRedirect).LoggedIn?
    ensures !CheckActiveSession(LookupDone([])).RedirectTo?
  {
  }
}
