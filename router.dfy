/** The frontend router: the route list with its `requiresAuth` flags, the
    redirect of '/', and the global `beforeEach` guard. Whether the user is
    authenticated is a parameter (the auth store's `isAuthenticated`). */
module Router {
  import opened Common

  /** A route record: a component route with its name and `requiresAuth`
      flag, or a path that only redirects. */
  datatype RouteRecord =
    | View(path: string, name: string, requiresAuth: bool)
    | Redirect(path: string)

  const LoginRoute := View("/login", "login", false)

  const Routes: seq<RouteRecord> := [
    LoginRoute,
    View("/dashboard", "dashboard", true),
    View("/tools/pdf-tools", "pdf-tools", true),
    View("/tools/notes", "notes", true),
    View("/tools/whiteboard", "whiteboard", true),
    View("/tools/tasks", "tasks", true),
    Redirect("/")
  ]

  /** An ASCII letter in lower case, as a case-insensitive regular
      expression compares it. */
  function LowerChar(c: char): char {
    if 'A' <= c <= 'Z' then (c as int + 32) as char else c
  }

  /** The path without one trailing '/', which a non-strict record accepts. */
  function TrimSlash(p: string): (q: string)
    ensures |q| <= |p| && q == p[..|q|]
  {
    if |p| > 1 && p[|p| - 1] == '/' then p[..|p| - 1] else p
  }

  /** The record path `a` matches the path `b`: Vue Router's default
      matching, case-insensitive and with an optional trailing slash. */
  predicate SamePath(a: string, b: string) {
    var x, y := TrimSlash(a), TrimSlash(b);
    |x| == |y| && forall i :: 0 <= i < |x| ==> LowerChar(x[i]) == LowerChar(y[i])
  }

  /** The first record whose path matches, if any. */
  function FindByPath(routes: seq<RouteRecord>, path: string): (r: Option<RouteRecord>)
    ensures r.Some? ==> r.value in routes && SamePath(r.value.path, path)
    ensures r.None? ==> forall k :: 0 <= k < |routes| ==> !SamePath(routes[k].path, path)
  {
    if |routes| == 0 then None
    else if SamePath(routes[0].path, path) then Some(routes[0])
    else FindByPath(routes[1..], path)
  }

  /** The record registered under a name, if any. */
  function FindByName(routes: seq<RouteRecord>, name: string): (r: Option<RouteRecord>)
    ensures r.Some? ==> r.value in routes && r.value.View? && r.value.name == name
    ensures r.None? ==> forall k :: 0 <= k < |routes| ==> !(routes[k].View? && routes[k].name == name)
  {
    if |routes| == 0 then None
    else if routes[0].View? && routes[0].name == name then Some(routes[0])
    else FindByName(routes[1..], name)
  }

  /** The redirect of '/'. */
  function RootRedirect(isAuthenticated: bool): (p: string)
    ensures p == "/dashboard" <==> isAuthenticated
    ensures FindByPath(Routes, p).Some? && FindByPath(Routes, p).value.View?
  {
    if isAuthenticated then "/dashboard" else "/login"
  }

  /** What the guard passes to `next`: nothing (go on) or `{ name }`. */
  datatype GuardResult = Proceed | RedirectToName(name: string)

  /** `beforeEach`: a destination whose `meta.requiresAuth` is set, while
      unauthenticated, is sent to 'login'; anything else goes on. A path with
      no record has empty `meta`. */
  function BeforeEach(to: Option<RouteRecord>, isAuthenticated: bool): (r: GuardResult)
    ensures r == RedirectToName("login") <==> RequiresAuth(to) && !isAuthenticated
    ensures r == Proceed <==> !(RequiresAuth(to) && !isAuthenticated)
  {
    if RequiresAuth(to) && !isAuthenticated then RedirectToName("login") else Proceed
  }

  predicate RequiresAuth(to: Option<RouteRecord>) {
    to.Some? && to.value.View? && to.value.requiresAuth
  }

  datatype Landing = Landing(path: string)

  /** One navigation to `path`: the redirect of a redirect record, then the
      guard; a guard redirect starts a second navigation to the named route. */
  function Navigate(path: string, isAuthenticated: bool): (l: Landing)
    ensures l.path == path || l.path == "/dashboard" || l.path == "/login"
  {
    var target := match FindByPath(Routes, path)
      case Some(Redirect(_)) => RootRedirect(isAuthenticated)
      case _ => path;
    match BeforeEach(FindByPath(Routes, target), isAuthenticated)
    case Proceed => Landing(target)
    case RedirectToName(name) =>
      match FindByName(Routes, name)
      case Some(r) => Landing(r.path)
      case None => Landing(target)
  }

  /** The dashboard and the four tools require authentication; the login
      page does not. */
  lemma ProtectedViews()
    ensures forall k :: 0 <= k < |Routes| && Routes[k].View? ==> (Routes[k].requiresAuth <==> Routes[k].name != "login")
  {
  }

  /** The guard's redirect target is itself let through, whatever the auth
      state: there is no redirect loop. */
  lemma LoginIsAlwaysAllowed(isAuthenticated: bool)
    ensures FindByName(Routes, "login") == Some(LoginRoute)
    ensures BeforeEach(Some(LoginRoute), isAuthenticated) == Proceed
  {
  }

  /** '/' lands on the dashboard when authenticated and on the login page
      otherwise. */
  lemma RootLanding(isAuthenticated: bool)
    ensures Navigate("/", isAuthenticated) == Landing(if isAuthenticated then "/dashboard" else "/login")
  {
    FindByPathAt(Routes, "/", 6);
    FindByPathAt(Routes, "/dashboard", 1);
  }

  /** The lookup finds the first record with the path. */
  lemma {:induction false} FindByPathAt(routes: seq<RouteRecord>, path: string, k: nat)
    requires k < |routes| && SamePath(routes[k].path, path)
    requires forall j :: 0 <= j < k ==> !SamePath(routes[j].path, path)
    ensures FindByPath(routes, path) == Some(routes[k])
  {
    if k > 0 {
      assert !SamePath(routes[0].path, path);
      FindByPathAt(routes[1..], path, k - 1);
    }
  }

  /** Every navigation ends on a page the guard lets through, and an
      unauthenticated user who asked for a protected page ends on /login. */
  lemma {:induction false} NavigationSettles(path: string, isAuthenticated: bool)
    ensures var l := Navigate(path, isAuthenticated);
            BeforeEach(FindByPath(Routes, l.path), isAuthenticated) == Proceed
    ensures !isAuthenticated && RequiresAuth(FindByPath(Routes, path)) ==> Navigate(path, isAuthenticated) == Landing("/login")
  {
    LoginIsAlwaysAllowed(isAuthenticated);
    assert FindByPath(Routes, "/login") == Some(LoginRoute);
    assert FindByPath(Routes, "/dashboard") == Some(Routes[1]);
  }

  /** A protected page asked for with other letter case or a trailing slash
      still requires authentication: unauthenticated, it ends on /login. */
  lemma LoosePathsStayProtected()
    ensures FindByPath(Routes, "/dashboard/") == Some(Routes[1])
    ensures FindByPath(Routes, "/Dashboard") == Some(Routes[1])
    ensures Navigate("/dashboard/", false) == Landing("/login")
    ensures Navigate("/Dashboard", false) == Landing("/login")
  {
    FindByPathAt(Routes, "/dashboard/", 1);
    FindByPathAt(Routes, "/Dashboard", 1);
    NavigationSettles("/dashboard/", false);
    NavigationSettles("/Dashboard", false);
  }
}
