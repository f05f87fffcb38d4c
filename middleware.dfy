/** The route guard run before every page: visitors without a session are sent to the login
    page unless the path is public, and signed-in users are sent from the public pages to the
    dashboard, except on the `/auth/` pages that finish a sign-in or a password reset. */
module Middleware {

  /** The parts of the request URL the guard looks at or keeps. */
  datatype Url = Url(origin: string, pathname: string, search: string)

  /** `NextResponse.next()`, or a redirect to a URL. */
  datatype Response = Next | Redirect(location: Url)

  const RouteCount := 5

  /** The public route prefixes, in the order the guard lists them. */
  function PublicRoute(i: nat): string
    requires i < RouteCount
  {
    match i
    case 0 => "/login"
    case 1 => "/signup"
    case 2 => "/forgot-password"
    case 3 => "/auth/reset-password"
    case _ => "/auth/callback"
  }

  /** `publicRoutes.some(route => pathname.startsWith(route))`. */
  predicate IsPublic(path: string)
  {
    exists i :: 0 <= i < RouteCount && PublicRoute(i) <= path
  }

  /** The prefix of the pages that finish a sign-in; a session does not leave them. */
  const AuthPrefix := "/auth/"

  /** `middleware(req)`, given whether the request carries a session. */
  function Guard(session: bool, url: Url): Response
  {
    if !session && !IsPublic(url.pathname) then Redirect(url.(pathname := "/login"))
    else if session && IsPublic(url.pathname) && !(AuthPrefix <= url.pathname) then
      Redirect(url.(pathname := "/dashboard"))
    else Next
  }

  /** The three outcomes, each characterised by the session and the path: they exclude each
      other and one of them always happens; a redirect keeps the URL but for its path. */
  lemma GuardOutcomes(session: bool, url: Url)
    ensures Guard(session, url) == Redirect(url.(pathname := "/login"))
            <==> !session && !IsPublic(url.pathname)
    ensures Guard(session, url) == Redirect(url.(pathname := "/dashboard"))
            <==> session && IsPublic(url.pathname) && !(AuthPrefix <= url.pathname)
    ensures Guard(session, url) == Next
            <==> (!session && IsPublic(url.pathname))
                 || (session && (!IsPublic(url.pathname) || AuthPrefix <= url.pathname))
    ensures Guard(session, url).Redirect? ==>
              Guard(session, url).location.origin == url.origin
              && Guard(session, url).location.search == url.search
  {
  }

  /** The test is on prefixes: "/signup-x" and "/login/anything" are public too. */
  lemma PublicByPrefix(path: string, i: nat)
    requires i < RouteCount && PublicRoute(i) <= path
    ensures IsPublic(path)
  {
  }

  /** A signed-in user stays on the pages that finish a sign-in or a password reset. */
  lemma AuthPagesPass(url: Url)
    requires PublicRoute(3) <= url.pathname || PublicRoute(4) <= url.pathname
    ensures Guard(true, url) == Next
  {
    assert AuthPrefix <= PublicRoute(3) && AuthPrefix <= PublicRoute(4);
  }

  /** "/dashboard" is not public: it starts with none of the prefixes. */
  lemma DashboardIsPrivate()
    ensures !IsPublic("/dashboard")
  {
    forall i | 0 <= i < RouteCount ensures !(PublicRoute(i) <= "/dashboard") {
      assert PublicRoute(i)[1] != "/dashboard"[1];
    }
  }

  /** The guard never redirects twice in a row: the login page lets a visitor without a
      session in, and the dashboard lets a signed-in user in. */
  lemma NoRedirectLoop(session: bool, url: Url)
    requires Guard(session, url).Redirect?
    ensures Guard(session, Guard(session, url).location) == Next
  {
    if session {
      DashboardIsPrivate();
    } else {
      assert PublicRoute(0) <= "/login";
    }
  }
}
