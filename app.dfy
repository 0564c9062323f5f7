/** The route table of the application shell: what is shown for a path,
    given the loading flag and the signed-in user of the session. */
module App {
  import opened Common
  import opened AuthContext

  datatype Page =
    | LandingPage | LoginPage | UserDashboardPage | AdminDashboardPage | IssueReportingPage
    | WasteExchangePage | CommunityPage | ProfilePage | AnalyticsPage | SponsorshipsPage

  /** What the shell produces: the loading spinner, a page, a redirect, or
      nothing when no route matches the path. */
  datatype Outcome = Spinner | Render(page: Page) | Redirect(to: string) | NoRoute

  /** The paths shown only to a signed-in user, with their pages. */
  const SignedInRoutes: map<string, Page> := map[
    "/dashboard" := UserDashboardPage,
    "/report" := IssueReportingPage,
    "/waste-exchange" := WasteExchangePage,
    "/community" := CommunityPage,
    "/profile" := ProfilePage,
    "/analytics" := AnalyticsPage,
    "/sponsorships" := SponsorshipsPage
  ]

  /** `user?.user_metadata?.role === 'admin'`. */
  predicate IsAdmin(user: Option<User>)
    ensures IsAdmin(user) <==>
      user.Some? && "role" in user.value.metadata && user.value.metadata["role"] == "admin"
  {
    RoleOf(user) == Some("admin")
  }

  /** The path without its trailing slashes ("/" itself becomes ""). */
  function TrimTrailingSlashes(s: string): (r: string)
    ensures r <= s
    ensures r == [] || r[|r| - 1] != '/'
    ensures forall i :: |r| <= i < |s| ==> s[i] == '/'
  {
    if s != [] && s[|s| - 1] == '/' then TrimTrailingSlashes(s[..|s| - 1]) else s
  }

  /** What the router compares with the route paths. A static route path p
      matches a pathname when the pathname is p followed by any number of
      slashes, ignoring the case of ASCII letters. All route paths here are
      lower case and "/" is the only one ending in a slash, so matching is
      equality of route keys, "" standing for "/". */
  function RouteKey(path: string): (k: string)
    ensures |k| <= |path|
    ensures k == [] || k[|k| - 1] != '/'
    ensures forall i :: 0 <= i < |k| ==> !('A' <= k[i] <= 'Z')
  {
    TrimTrailingSlashes(Lower(path))
  }

  /** A trailing slash never changes the route key. */
  lemma RouteKeyTrailingSlash(path: string)
    ensures RouteKey(path + "/") == RouteKey(path)
  {
    assert Lower(path + "/") == Lower(path) + "/";
    assert (Lower(path) + "/")[..|path|] == Lower(path);
  }

  /** Lower-casing the path never changes the route key. */
  lemma RouteKeyIgnoresCase(path: string)
    ensures RouteKey(Lower(path)) == RouteKey(path)
  {
    LowerIdempotent(path);
  }

  /** The route key of a route key is itself. */
  lemma {:induction false} RouteKeyIdempotent(path: string)
    ensures RouteKey(RouteKey(path)) == RouteKey(path)
  {
    var k := RouteKey(path);
    assert Lower(k) == k;
  }

  /** A path without capitals or a trailing slash is its own key. */
  lemma RouteKeyOfRoutePath(path: string)
    requires forall i :: 0 <= i < |path| ==> !('A' <= path[i] <= 'Z')
    requires path == [] || path[|path| - 1] != '/'
    ensures RouteKey(path) == path
  {
    assert Lower(path) == path;
  }

  /** The root path's key is the empty string. */
  lemma RouteKeyOfRoot()
    ensures RouteKey("/") == ""
  {
    RouteKeyTrailingSlash([]);
    assert [] + "/" == "/";
    RouteKeyOfRoutePath([]);
  }

  /** "/admin" is its own key, and "/Admin/" reaches the same route. */
  lemma RouteKeyOfAdmin()
    ensures RouteKey("/admin") == "/admin"
    ensures RouteKey("/Admin/") == "/admin"
  {
    RouteKeyOfRoutePath("/admin");
    RouteKeyTrailingSlash("/Admin");
    assert "/Admin" + "/" == "/Admin/";
    RouteKeyIgnoresCase("/Admin");
    assert Lower("/Admin") == "/admin";
  }

  function AppContent(loading: bool, user: Option<User>, path: string): (o: Outcome)
    ensures loading <==> o == Spinner
    ensures o == Render(AdminDashboardPage) ==> RouteKey(path) == "/admin" && IsAdmin(user)
    ensures o.Render? && o.page != LandingPage && o.page != LoginPage ==> user.Some?
    ensures user.None? && o.Redirect? ==> o.to == "/login" || RouteKey(path) == "/admin"
    ensures !loading && o == NoRoute <==>
      !loading && RouteKey(path) !in {"", "/login", "/admin"} && RouteKey(path) !in SignedInRoutes
  {
    var key := RouteKey(path);
    if loading then Spinner
    else if key == "" then Render(LandingPage)
    else if key == "/login" then (if user.Some? then Redirect("/dashboard") else Render(LoginPage))
    else if key == "/admin" then (if IsAdmin(user) then Render(AdminDashboardPage) else Redirect("/dashboard"))
    else if key in SignedInRoutes then
      (if user.Some? then Render(SignedInRoutes[key]) else Redirect("/login"))
    else NoRoute
  }

  /** Paths with the same route key lead to the same outcome. */
  lemma SameRouteSameOutcome(loading: bool, user: Option<User>, path: string, other: string)
    requires RouteKey(other) == RouteKey(path)
    ensures AppContent(loading, user, other) == AppContent(loading, user, path)
  {
  }

  /** While loading, no route is chosen for any path. */
  lemma LoadingShowsOnlySpinner(user: Option<User>, path: string)
    ensures AppContent(true, user, path) == Spinner
  {
  }

  /** The landing page is public. */
  lemma LandingIsPublic(user: Option<User>, path: string)
    requires RouteKey(path) == ""
    ensures AppContent(false, user, path) == Render(LandingPage)
  {
  }

  /** A signed-in user is sent from the login page to the dashboard. */
  lemma LoginRoute(user: Option<User>, path: string)
    requires RouteKey(path) == "/login"
    ensures AppContent(false, user, path) ==
            if user.Some? then Redirect("/dashboard") else Render(LoginPage)
  {
  }

  /** The protected paths are distinct from the public and the admin paths. */
  lemma SignedInRoutesAreProtectedOnly(key: string)
    requires key in SignedInRoutes
    ensures key != "" && key != "/login" && key != "/admin"
  {
  }

  /** Each signed-in page is rendered exactly when a user is present and
      otherwise redirects to the login page. */
  lemma SignedInRoute(user: Option<User>, path: string)
    requires RouteKey(path) in SignedInRoutes
    ensures AppContent(false, user, path) == Render(SignedInRoutes[RouteKey(path)]) <==> user.Some?
    ensures user.None? ==> AppContent(false, user, path) == Redirect("/login")
  {
    SignedInRoutesAreProtectedOnly(RouteKey(path));
  }

  /** The admin dashboard is rendered exactly for the admin role; everyone
      else, signed in or not, is redirected to the dashboard. */
  lemma AdminRoute(user: Option<User>, path: string)
    requires RouteKey(path) == "/admin"
    ensures AppContent(false, user, path) ==
            if IsAdmin(user) then Render(AdminDashboardPage) else Redirect("/dashboard")
  {
  }

  /** No path at all shows the admin dashboard to a user without the admin role. */
  lemma NoAdminPageForNonAdmin(loading: bool, user: Option<User>)
    requires !IsAdmin(user)
    ensures forall path :: AppContent(loading, user, path) != Render(AdminDashboardPage)
  {
  }

  /** The development user of the mount effect cannot open the admin
      dashboard; a sign-in as the administrator can. */
  lemma AdminAccessOfMockUsers(email: string)
    ensures AppContent(false, Some(MountUser()), "/admin") == Redirect("/dashboard")
    ensures AppContent(false, Some(SignInUser(email)), "/admin") ==
            if email == AdminEmail then Render(AdminDashboardPage) else Redirect("/dashboard")
  {
    RouteKeyOfAdmin();
    AdminRoute(Some(MountUser()), "/admin");
    AdminRoute(Some(SignInUser(email)), "/admin");
  }
}
