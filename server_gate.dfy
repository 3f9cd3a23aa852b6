/**
 * The server-side route gate (`handle` in src/hooks.server.ts): a decision over
 * the request path and the `session` cookie. `encodeURIComponent` is passed in
 * as `encode`, an arbitrary function.
 */
module ServerGate {
  import opened Wrappers

  const PublicRoutes: seq<string> := ["/login", "/api/auth/session"]

  /** Either the request is resolved unchanged or a redirect is thrown. */
  datatype Outcome = Resolve | Redirect(status: int, location: string)

  /** `!!sessionCookie`: a cookie that is present and non-empty. */
  predicate IsAuthenticated(sessionCookie: Option<string>)
  {
    sessionCookie.Some? && sessionCookie.value != ""
  }

  /** `publicRoutes.includes(pathname)`: exact membership, no prefix matching. */
  predicate IsPublicRoute(pathname: string)
  {
    pathname in PublicRoutes
  }

  function LoginLocation(pathname: string, encode: string -> string): string
  {
    "/login?returnTo=" + encode(pathname)
  }

  function Handle(pathname: string, sessionCookie: Option<string>, encode: string -> string): (outcome: Outcome)
    ensures outcome == Redirect(303, LoginLocation(pathname, encode))
      <==> !IsPublicRoute(pathname) && !IsAuthenticated(sessionCookie)
    ensures outcome == Redirect(303, "/")
      <==> pathname == "/login" && IsAuthenticated(sessionCookie)
    ensures outcome == Resolve <==>
      && (IsPublicRoute(pathname) || IsAuthenticated(sessionCookie))
      && !(pathname == "/login" && IsAuthenticated(sessionCookie))
  {
    if !IsPublicRoute(pathname) && !IsAuthenticated(sessionCookie) then
      Redirect(303, LoginLocation(pathname, encode))
    else if pathname == "/login" && IsAuthenticated(sessionCookie) then
      Redirect(303, "/")
    else
      Resolve
  }

  lemma PublicRoutesAreExact(pathname: string)
    ensures IsPublicRoute(pathname) <==> pathname == "/login" || pathname == "/api/auth/session"
    ensures !IsPublicRoute("/login/") && !IsPublicRoute("/api/auth/session/extra")
  {
  }

  /** An unauthenticated visitor is never sent away from the login page, and the session endpoint always passes. */
  lemma LoginAndSessionEndpointReachable(sessionCookie: Option<string>, encode: string -> string)
    ensures !IsAuthenticated(sessionCookie) ==> Handle("/login", sessionCookie, encode) == Resolve
    ensures Handle("/api/auth/session", sessionCookie, encode) == Resolve
  {
  }

  /** An empty cookie value counts as no session. */
  lemma EmptyCookieIsSignedOut(pathname: string, encode: string -> string)
    ensures Handle(pathname, Some(""), encode) == Handle(pathname, None, encode)
  {
  }
}
