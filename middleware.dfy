/** The route gate of lib/supabase/middleware.ts (`updateSession`, lines
    34-73) as a function of the path, whether `getUser` found a user, and
    the value of the `demo_mode` cookie. The Supabase client, its session
    cookies and the logging are not modelled. */
module Middleware {
  import opened Types
  import opened Text

  /** A cookie the response sets. */
  datatype CookieSet = CookieSet(name: string, value: string, path: string, maxAge: int)

  /** The response: pass the request on (possibly refreshing the demo
      cookie), or redirect to another path of the same URL. */
  datatype Response = Next(cookie: Option<CookieSet>) | Redirect(path: string)

  const DemoCookie := CookieSet("demo_mode", "true", "/", 86400)

  predicate IsAuthRoute(pathname: string) {
    StartsWith(pathname, "/login") || StartsWith(pathname, "/signup") || StartsWith(pathname, "/forgot-password")
  }

  predicate IsAuthCallback(pathname: string) {
    StartsWith(pathname, "/auth/callback")
  }

  predicate IsProtectedRoute(pathname: string) {
    StartsWith(pathname, "/dashboard") || StartsWith(pathname, "/projects") || StartsWith(pathname, "/settings")
  }

  /** Computed by the middleware but never consulted. */
  predicate IsPublicRoute(pathname: string) {
    pathname == "/" || StartsWith(pathname, "/pricing")
  }

  /** `demoModeCookie?.value === 'true'`. */
  predicate IsDemoMode(demoCookie: Option<string>) {
    demoCookie == Some("true")
  }

  function UpdateSession(pathname: string, hasUser: bool, demoCookie: Option<string>): (r: Response)
    ensures r.Redirect? ==> r.path == "/login" || r.path == "/dashboard"
    ensures r.Next? && r.cookie.Some? ==> r.cookie.value == DemoCookie && IsDemoMode(demoCookie)
  {
    if IsAuthCallback(pathname) then Next(None)
    else if IsProtectedRoute(pathname) && !hasUser && !IsDemoMode(demoCookie) then Redirect("/login")
    else if IsAuthRoute(pathname) && hasUser then Redirect("/dashboard")
    else if IsDemoMode(demoCookie) then Next(Some(DemoCookie))
    else Next(None)
  }

  /** No path is both an auth page and a protected page, and neither kind is the callback. */
  lemma RoutesDisjoint(pathname: string)
    ensures !(IsAuthRoute(pathname) && IsProtectedRoute(pathname))
    ensures IsAuthCallback(pathname) ==> !IsAuthRoute(pathname) && !IsProtectedRoute(pathname)
  {
    var auth := ["/login", "/signup", "/forgot-password"];
    var guarded := ["/dashboard", "/projects", "/settings", "/auth/callback"];
    forall a, g | a in auth && g in guarded ensures !(StartsWith(pathname, a) && StartsWith(pathname, g)) {
      if a == "/signup" && g == "/settings" {
        PrefixesClash(pathname, a, g, 2);
      } else {
        PrefixesClash(pathname, a, g, 1);
      }
    }
    forall g | g in ["/dashboard", "/projects", "/settings"]
      ensures !(StartsWith(pathname, g) && StartsWith(pathname, "/auth/callback")) {
      PrefixesClash(pathname, g, "/auth/callback", 1);
    }
  }

  /** The auth callback always passes through untouched. */
  lemma CallbackPassesThrough(pathname: string, hasUser: bool, demoCookie: Option<string>)
    requires IsAuthCallback(pathname)
    ensures UpdateSession(pathname, hasUser, demoCookie) == Next(None)
  {
  }

  /** A protected page redirects to /login exactly when there is neither a user nor demo mode. */
  lemma ProtectedRedirectsToLogin(pathname: string, hasUser: bool, demoCookie: Option<string>)
    requires IsProtectedRoute(pathname)
    ensures UpdateSession(pathname, hasUser, demoCookie) == Redirect("/login") <==> !hasUser && !IsDemoMode(demoCookie)
  {
    RoutesDisjoint(pathname);
  }

  /** An auth page with a user goes to /dashboard, demo mode or not. */
  lemma AuthRouteWithUser(pathname: string, demoCookie: Option<string>)
    requires IsAuthRoute(pathname)
    ensures UpdateSession(pathname, true, demoCookie) == Redirect("/dashboard")
  {
    RoutesDisjoint(pathname);
  }

  /** The two redirects and the conditions that produce them, for every request. */
  lemma RedirectIff(pathname: string, hasUser: bool, demoCookie: Option<string>)
    ensures var r := UpdateSession(pathname, hasUser, demoCookie);
      && (r == Redirect("/login") <==> IsProtectedRoute(pathname) && !hasUser && !IsDemoMode(demoCookie))
      && (r == Redirect("/dashboard") <==> IsAuthRoute(pathname) && hasUser)
      && (r.Redirect? ==> r.path == "/login" || r.path == "/dashboard")
  {
    RoutesDisjoint(pathname);
  }

  /** Without a redirect, demo mode re-sets its cookie for another day; the callback is exempt. */
  lemma DemoCookieRefreshed(pathname: string, hasUser: bool, demoCookie: Option<string>)
    requires !IsAuthCallback(pathname)
    ensures var r := UpdateSession(pathname, hasUser, demoCookie);
      r.Next? ==> (r.cookie == Some(DemoCookie) <==> IsDemoMode(demoCookie))
  {
  }

  /** Paths that are neither auth pages nor protected (the home page and
      /pricing among them) always pass, with the demo cookie refreshed when
      set; being public plays no part. */
  lemma OtherPathsPass(pathname: string, hasUser: bool, demoCookie: Option<string>)
    requires !IsAuthRoute(pathname) && !IsProtectedRoute(pathname)
    ensures UpdateSession(pathname, hasUser, demoCookie)
         == Next(if !IsAuthCallback(pathname) && IsDemoMode(demoCookie) then Some(DemoCookie) else None)
  {
  }

  lemma PublicRoutesPass(pathname: string, hasUser: bool, demoCookie: Option<string>)
    requires IsPublicRoute(pathname)
    ensures UpdateSession(pathname, hasUser, demoCookie).Next?
  {
    if pathname != "/" {
      PrefixesClash(pathname, "/pricing", "/login", 1);
      PrefixesClash(pathname, "/pricing", "/signup", 1);
      PrefixesClash(pathname, "/pricing", "/forgot-password", 1);
      PrefixesClash(pathname, "/pricing", "/dashboard", 1);
      PrefixesClash(pathname, "/pricing", "/projects", 3);
      PrefixesClash(pathname, "/pricing", "/settings", 1);
    }
  }
}
