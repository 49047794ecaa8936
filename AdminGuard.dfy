/** The admin route guard: whether a request may enter the dashboard, where it
    is sent instead, and what it writes to the access log. */
module AdminGuard {
  import opened Wrappers
  import opened Router
  import opened LogService

  const AdminRole := "admin"
  const DefaultRedirect := "/home"
  const AccessDenied := "/access-denied"
  const AdminRequiredMessage := "Admin access required"

  /** The profile the server returns for the stored token. */
  datatype UserProfile = UserProfile(id: int, email: string, role: string)

  /** The guard's answer: allow, or the URL tree to redirect to. */
  datatype GuardResult = Allow | Redirect(to: Navigation)

  /** Everything one guard call does: its answer, the log entry it writes (if
      any) and whether it asked the server for the profile. */
  datatype AdminCheck = AdminCheck(result: GuardResult, entry: Option<AccessAttemptLog>, profileRequested: bool)

  /** `adminGuard` for a request to `url`. `profile` is the answer of the
      profile request, `None` when it failed; it is only consulted when a token
      is present. */
  function CheckAdmin(hasToken: bool, profile: Option<UserProfile>, url: string): (c: AdminCheck)
    ensures c.profileRequested <==> hasToken
    ensures c.result.Allow? <==> hasToken && profile.Some? && profile.value.role == AdminRole
    ensures c.result.Allow? <==> c.entry.None?
    ensures !hasToken ==>
      c.result == Redirect(UrlTree(DefaultRedirect)) && c.entry == Some(AccessAttemptLog(-1, None, url, "guest"))
    ensures hasToken && profile.None? ==>
      c.result == Redirect(UrlTree(DefaultRedirect)) && c.entry == Some(AccessAttemptLog(-1, None, url, "unauthorized"))
    ensures hasToken && profile.Some? && profile.value.role != AdminRole ==>
      c.entry == Some(AccessAttemptLog(profile.value.id, Some(profile.value.email), url, profile.value.role)) &&
      c.result.Redirect? && c.result.to.commands == [if profile.value.role == "user" then AccessDenied else DefaultRedirect] &&
      c.result.to.queryParams == map["message" := Some(AdminRequiredMessage), "attempted" := Some(url)]
  {
    if !hasToken then
      AdminCheck(Redirect(UrlTree(DefaultRedirect)), Some(AccessAttemptLog(-1, None, url, "guest")), false)
    else match profile
      case None =>
        AdminCheck(Redirect(UrlTree(DefaultRedirect)), Some(AccessAttemptLog(-1, None, url, "unauthorized")), true)
      case Some(user) =>
        if user.role == AdminRole then AdminCheck(Allow, None, true)
        else
          var path := if user.role == "user" then AccessDenied else DefaultRedirect;
          var params := map["message" := Some(AdminRequiredMessage), "attempted" := Some(url)];
          AdminCheck(Redirect(Navigation([path], params, false)), Some(AccessAttemptLog(user.id, Some(user.email), url, user.role)), true)
  }

  /** The guard as the router runs it: decide, then write the entry, if any. */
  method AdminGuard(logs: LogService, hasToken: bool, profile: Option<UserProfile>, url: string) returns (result: GuardResult)
    modifies logs
    ensures result == CheckAdmin(hasToken, profile, url).result
    ensures result.Allow? ==> logs.accessLogs == old(logs.accessLogs)
    ensures result.Redirect? ==> logs.accessLogs == Logged(old(logs.accessLogs), CheckAdmin(hasToken, profile, url).entry.value)
  {
    var c := CheckAdmin(hasToken, profile, url);
    if c.entry.Some? {
      logs.LogAccessAttempt(c.entry.value);
    }
    result := c.result;
  }
}
