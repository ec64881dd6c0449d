/** The route guard: where a request goes, from whether a session exists and the path. */
module Middleware {
  import opened Strings

  datatype Decision = PassThrough | Redirect(path: string)

  const LoginPath: string := "/auth/login"
  const BoardPath: string := "/dashboard/board"

  predicate IsAuthRoute(pathname: string) { StartsWith(pathname, "/auth") }

  predicate IsDashboardRoute(pathname: string) { StartsWith(pathname, "/dashboard") }

  /** `middleware`: no session on a dashboard path goes to the login page, a session on an auth path goes to the board. */
  function Decide(hasSession: bool, pathname: string): (d: Decision)
    ensures d == Redirect(LoginPath) <==> !hasSession && IsDashboardRoute(pathname)
    ensures d == Redirect(BoardPath) <==> hasSession && IsAuthRoute(pathname)
    ensures d == PassThrough <==>
      (hasSession || !IsDashboardRoute(pathname)) && (!hasSession || !IsAuthRoute(pathname))
  {
    if !hasSession && IsDashboardRoute(pathname) then Redirect(LoginPath)
    else if hasSession && IsAuthRoute(pathname) then Redirect(BoardPath)
    else PassThrough
  }

  /** A redirect never leads to another one in the same session state. */
  lemma NoRedirectLoop(hasSession: bool, pathname: string)
    ensures Decide(hasSession, pathname).Redirect? ==> Decide(hasSession, Decide(hasSession, pathname).path) == PassThrough
  {
    assert LoginPath[1] != "/dashboard"[1];
    assert BoardPath[1] != "/auth"[1];
  }

  /** The test is a raw prefix test: any path that merely begins with "/auth", such as "/authx", counts. */
  lemma RawPrefixMatch(suffix: string)
    ensures Decide(true, "/auth" + suffix) == Redirect(BoardPath)
    ensures Decide(false, "/dashboard" + suffix) == Redirect(LoginPath)
  {
  }
}
