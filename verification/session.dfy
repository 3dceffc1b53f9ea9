/**
 * What every screen does before it shows anything: look up the caller's
 * profile, decide by role and firm whether to proceed, and guard each fetch
 * again before querying. Also the shared shape of backend errors.
 */
module Session {
  import opened Wrappers
  import opened Text
  import opened Entities

  /** The caller as the screens keep it after the profile lookup. */
  datatype UserData = UserData(id: string, email: Option<string>, role: string, firmId: Option<string>)

  /** The caller built from their profile document. */
  function UserOf(p: Profile): (u: UserData)
    ensures u.id == p.userId && u.role == p.role && u.firmId == p.firmId
    ensures u.email == Some(p.officialEmail)
  {
    UserData(p.userId, Some(p.officialEmail), p.role, p.firmId)
  }

  /** The firm the caller is assigned to, when `currentUser && currentUser.firmId` is truthy. */
  function CallerFirm(u: Option<UserData>): (r: Option<string>)
    ensures r.Some? <==> u.Some? && Truthy(u.value.firmId)
    ensures r.Some? ==> r == u.value.firmId && r.value != ""
  {
    if u.Some? && Truthy(u.value.firmId) then u.value.firmId else None
  }

  /**
   * The guard at the top of every firm-scoped fetch: it proceeds, with the
   * firm to scope the queries to, only for a firm admin who has a firm.
   */
  function FirmScopedFetch(u: Option<UserData>): (r: Option<string>)
    ensures r.Some? <==> u.Some? && u.value.role == FirmAdmin && Truthy(u.value.firmId)
    ensures r.Some? ==> r == CallerFirm(u)
  {
    if u.Some? && u.value.role == FirmAdmin then CallerFirm(u) else None
  }

  /** The guard at the top of the super admin fetches. */
  predicate SuperAdminFetch(u: Option<UserData>) {
    u.Some? && u.value.role == SuperAdmin
  }

  /**
   * A row gets no delete button: the caller is unknown, or the row is the
   * caller's own account.
   */
  predicate NoDeleteButton(rowUserId: string, caller: Option<UserData>) {
    caller.None? || rowUserId == caller.value.id
  }

  /** The outcome of `account.get()` followed by the profile query limited to one document. */
  datatype ProfileLookup = LookupFailed | LookupDone(documents: seq<Profile>)

  /** What a screen requires of its caller and how it reports a refusal. */
  datatype AuthPolicy = AuthPolicy(
    requiredRole: string,
    needsFirm: bool,
    deniedMessage: string,
    unassignedMessage: string,
    redirects: bool)

  datatype AuthOutcome =
    | SignedOut                                                    // session deleted, browser sent to "/"
    | AuthError(message: string, redirect: Option<string>)
    | Denied(user: UserData, message: string, redirect: Option<string>)
    | Granted(user: UserData)

  const AuthCheckFailed := "Authentication check failed. Please try logging in again."

  /**
   * The mount-time check of a screen. A missing profile ends the session; a
   * wrong role is reported before a missing firm; management screens also
   * redirect (to "/dashboard" on a refusal, to "/" on an error).
   */
  function CheckAuth(policy: AuthPolicy, lookup: ProfileLookup): (r: AuthOutcome)
    ensures r.SignedOut? <==> lookup.LookupDone? && lookup.documents == []
    ensures r.AuthError? <==> lookup.LookupFailed?
    ensures r.Granted? <==>
      lookup.LookupDone? && lookup.documents != [] &&
      lookup.documents[0].role == policy.requiredRole &&
      (policy.needsFirm ==> Truthy(lookup.documents[0].firmId))
    ensures (r.Granted? || r.Denied?) ==> r.user == UserOf(lookup.documents[0])
    ensures r.Denied? && r.user.role != policy.requiredRole ==> r.message == policy.deniedMessage
    ensures r.Denied? && r.user.role == policy.requiredRole ==>
      r.message == policy.unassignedMessage && !Truthy(r.user.firmId)
    ensures r.Denied? ==> r.redirect == (if policy.redirects then Some("/dashboard") else None)
    ensures r.AuthError? ==> r.message == AuthCheckFailed && r.redirect == (if policy.redirects then Some("/") else None)
  {
    match lookup
    case LookupFailed => AuthError(AuthCheckFailed, if policy.redirects then Some("/") else None)
    case LookupDone(docs) =>
      if docs == [] then SignedOut
      else
        var user := UserOf(docs[0]);
        var redirect := if policy.redirects then Some("/dashboard") else None;
        if user.role != policy.requiredRole then Denied(user, policy.deniedMessage, redirect)
        else if policy.needsFirm && !Truthy(user.firmId) then Denied(user, policy.unassignedMessage, redirect)
        else Granted(user)
  }

  /** The user a check leaves in `currentUser` (set before the role test, so also on a refusal). */
  function CurrentUserAfter(r: AuthOutcome): Option<UserData> {
    match r
    case Granted(u) => Some(u)
    case Denied(u, _, _) => Some(u)
    case _ => None
  }

  /**
   * For a firm admin screen, the check and the fetch guard agree: the fetch
   * proceeds exactly when access was granted.
   */
  lemma FirmAdminCheckMatchesGuard(policy: AuthPolicy, lookup: ProfileLookup)
    requires policy.requiredRole == FirmAdmin && policy.needsFirm
    ensures FirmScopedFetch(CurrentUserAfter(CheckAuth(policy, lookup))).Some? <==>
            CheckAuth(policy, lookup).Granted?
  {
  }

  /** For a super admin screen, likewise. */
  lemma SuperAdminCheckMatchesGuard(policy: AuthPolicy, lookup: ProfileLookup)
    requires policy.requiredRole == SuperAdmin && !policy.needsFirm
    ensures SuperAdminFetch(CurrentUserAfter(CheckAuth(policy, lookup))) <==>
            CheckAuth(policy, lookup).Granted?
  {
  }

  /** A backend exception: its numeric `code` and its `message`. */
  datatype BackendError = BackendError(code: int, message: string)

  /** `text + (err.message ? ": " + err.message : "")`: the toast shown for a failed write. */
  function WithRawMessage(text: string, err: BackendError): (r: string)
    ensures StartsWith(r, text)
    ensures err.message == "" <==> r == text
    ensures err.message != "" ==> r[|text|..] == ": " + err.message
  {
    if err.message != "" then text + ": " + err.message else text
  }

  /** The delete-failure toast: a conflict (409) gets the screen's own explanation. */
  function DeleteErrorText(defaultText: string, conflictText: string, err: BackendError): (r: string)
    ensures err.code == 409 ==> r == WithRawMessage(conflictText, err)
    ensures err.code != 409 ==> r == WithRawMessage(defaultText, err)
  {
    WithRawMessage(if err.code == 409 then conflictText else defaultText, err)
  }
}
