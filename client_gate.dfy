/**
 * The client-side route gate (`load` in src/routes/+layout.ts): a decision over
 * whether the code runs in the browser, the path and the tri-state user store.
 * `encodeURIComponent` is passed in as `encode`, an arbitrary function.
 */
module ClientGate {

  /** The user store: `undefined` while loading, `null` when signed out, a user object when signed in. */
  datatype UserState = Loading | SignedOut | SignedIn(uid: string)

  /** `{}` or a thrown redirect. */
  datatype LoadResult = EmptyData | Redirect(status: int, location: string)

  /** Only the login page is public on the client; the session endpoint is not listed. */
  const PublicRoutes: seq<string> := ["/login"]

  predicate IsPublicRoute(pathname: string)
  {
    pathname in PublicRoutes
  }

  function Load(isBrowser: bool, pathname: string, user: UserState, encode: string -> string): (result: LoadResult)
    ensures result.Redirect? <==> isBrowser && !IsPublicRoute(pathname) && user == SignedOut
    ensures result.Redirect? ==> result == Redirect(303, "/login?returnTo=" + encode(pathname))
  {
    if !isBrowser then EmptyData
    else if !IsPublicRoute(pathname) && user == SignedOut then
      Redirect(303, "/login?returnTo=" + encode(pathname))
    else EmptyData
  }

  /** Outside the browser, a still-loading user, or a signed-in user is never redirected, even on /login. */
  lemma NeverRedirectsUnlessSignedOut(isBrowser: bool, pathname: string, user: UserState, encode: string -> string)
    requires !isBrowser || user != SignedOut
    ensures Load(isBrowser, pathname, user, encode) == EmptyData
  {
  }

  /** Unlike the server gate, the client gate sends a signed-out user away from the session endpoint. */
  lemma SessionEndpointNotPublic(encode: string -> string)
    ensures Load(true, "/api/auth/session", SignedOut, encode).Redirect?
  {
  }
}
