/** The signed-in guard: a signed-in user passes, anyone else is logged as a
    guest and sent home. */
module AccessGuard {
  import opened Wrappers
  import opened Router
  import opened LogService
  import opened AdminGuard

  /** The entry a refused request to `url` writes. */
  function GuestAttempt(url: string): (e: AccessAttemptLog)
    ensures e.userId == -1 && e.email.None? && e.targetUrl == url && e.userRole == "guest"
  {
    AccessAttemptLog(-1, None, url, "guest")
  }

  /** `canActivateAuth`: allow when signed in, otherwise redirect to `/home`
      after logging the attempt. */
  method CanActivateAuth(logs: LogService, isLoggedIn: bool, url: string) returns (result: GuardResult)
    modifies logs
    ensures result.Allow? <==> isLoggedIn
    ensures isLoggedIn ==> logs.accessLogs == old(logs.accessLogs)
    ensures !isLoggedIn ==> result == Redirect(UrlTree("/home"))
    ensures !isLoggedIn ==> logs.accessLogs == Logged(old(logs.accessLogs), GuestAttempt(url))
  {
    if isLoggedIn {
      return Allow;
    }
    logs.LogAccessAttempt(GuestAttempt(url));
    return Redirect(UrlTree("/home"));
  }

}
