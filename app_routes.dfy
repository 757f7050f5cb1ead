/** The route guards and the route table of the application shell. */
module AppRoutes {
  import opened Common
  import opened AuthContext

  /** What a guard renders. */
  datatype Outcome = Nothing | RedirectTo(path: string) | Children

  /** `ProtectedRoute`: wait for rehydration, then require a session user. */
  function ProtectedRoute(user: Option<User>, loading: bool): (o: Outcome)
    ensures o == Nothing <==> loading
    ensures o == RedirectTo("/login") <==> !loading && user.None?
    ensures o == Children <==> !loading && user.Some?
  {
    if loading then Nothing
    else if user.None? then RedirectTo("/login")
    else Children
  }

  /** `AdminRoute`: as ProtectedRoute, and a non-admin is sent home. */
  function AdminRoute(user: Option<User>, loading: bool): (o: Outcome)
    ensures o == Nothing <==> loading
    ensures o == RedirectTo("/login") <==> !loading && user.None?
    ensures o == RedirectTo("/") <==> !loading && user.Some? && user.value.role != Admin
    ensures o == Children <==> !loading && user.Some? && user.value.role == Admin
  {
    if loading then Nothing
    else if user.None? then RedirectTo("/login")
    else if user.value.role != Admin then RedirectTo("/")
    else Children
  }

  /** Admin access implies authenticated access. */
  lemma AdminImpliesProtected(user: Option<User>, loading: bool)
    ensures AdminRoute(user, loading) == Children ==> ProtectedRoute(user, loading) == Children
  {
  }

  /** The two guards agree everywhere except on a signed-in non-admin. */
  lemma GuardsDifferOnlyOnRole(user: Option<User>, loading: bool)
    ensures AdminRoute(user, loading) != ProtectedRoute(user, loading) <==>
      !loading && user.Some? && user.value.role != Admin
  {
  }

  datatype Page = HomePage | LandingPage | PostDetailPage | LoginPage | SignupPage
                | VerifyEmailPage | CreatePostPage | MyPostsPage | EditPostPage | AdminDashboardPage

  datatype Root = RenderNothing | RenderPage(page: Page)

  /** `PublicHome` at `/`: the feed for a signed-in user, the landing page otherwise. */
  function PublicHome(user: Option<User>, loading: bool): (r: Root)
    ensures r == RenderNothing <==> loading
    ensures r == RenderPage(HomePage) <==> !loading && user.Some?
    ensures r == RenderPage(LandingPage) <==> !loading && user.None?
  {
    if loading then RenderNothing else if user.Some? then RenderPage(HomePage) else RenderPage(LandingPage)
  }

  datatype Guard = PublicHomeGuard | Unguarded | Protected | AdminOnly

  datatype Route = Route(path: string, guard: Guard, page: Page)

  const Routes: seq<Route> := [
    Route("/", PublicHomeGuard, HomePage),
    Route("/home", Protected, HomePage),
    Route("/post/:id", Protected, PostDetailPage),
    Route("/login", Unguarded, LoginPage),
    Route("/signup", Unguarded, SignupPage),
    Route("/verify-email", Unguarded, VerifyEmailPage),
    Route("/create", Protected, CreatePostPage),
    Route("/my-posts", Protected, MyPostsPage),
    Route("/edit/:id", Protected, EditPostPage),
    Route("/admin/dashboard", AdminOnly, AdminDashboardPage)
  ]

  /** The first route with the given pattern. */
  function Lookup(routes: seq<Route>, path: string): (r: Option<Route>)
    ensures r.Some? ==> r.value in routes && r.value.path == path
    ensures r.None? ==> forall i :: 0 <= i < |routes| ==> routes[i].path != path
  {
    if routes == [] then None
    else if routes[0].path == path then Some(routes[0])
    else Lookup(routes[1..], path)
  }

  /** What one route renders in a given session, through its guard. */
  function RenderRoute(route: Route, user: Option<User>, loading: bool): Root {
    match route.guard
    case PublicHomeGuard => PublicHome(user, loading)
    case Unguarded => RenderPage(route.page)
    case Protected =>
      (match ProtectedRoute(user, loading)
       case Children => RenderPage(route.page)
       case RedirectTo(_) => RenderPage(LoginPage)
       case Nothing => RenderNothing)
    case AdminOnly =>
      (match AdminRoute(user, loading)
       case Children => RenderPage(route.page)
       case RedirectTo(p) => if p == "/login" then RenderPage(LoginPage) else PublicHome(user, loading)
       case Nothing => RenderNothing)
  }

  /** What the router renders for a route pattern in a given session. */
  function Render(path: string, user: Option<User>, loading: bool): (r: Option<Root>)
    ensures r.None? <==> Lookup(Routes, path).None?
    ensures r.Some? ==> r.value == RenderRoute(Lookup(Routes, path).value, user, loading)
  {
    match Lookup(Routes, path)
    case None => None
    case Some(route) => Some(RenderRoute(route, user, loading))
  }

  lemma {:induction false} LookupAt(routes: seq<Route>, i: nat)
    requires i < |routes|
    requires forall j :: 0 <= j < i ==> routes[j].path != routes[i].path
    ensures Lookup(routes, routes[i].path) == Some(routes[i])
  {
    if i > 0 {
      LookupAt(routes[1..], i - 1);
    }
  }

  /** No two routes share a pattern. */
  lemma PathsDistinct()
    ensures forall i, j :: 0 <= i < j < |Routes| ==> Routes[i].path != Routes[j].path
  {
    assert Routes[4].path[1] != Routes[6].path[1];
    assert Routes[2].path[1] != Routes[7].path[1];
    assert Routes[2].path[1] != Routes[8].path[1];
    assert Routes[7].path[1] != Routes[8].path[1];
  }

  lemma LookupEachRoute(k: nat)
    requires k < |Routes|
    ensures Lookup(Routes, Routes[k].path) == Some(Routes[k])
  {
    PathsDistinct();
    LookupAt(Routes, k);
  }

  /** The guard a route pattern carries, if the table has it. */
  function GuardOf(path: string): Option<Guard> {
    match Lookup(Routes, path)
    case None => None
    case Some(r) => Some(r.guard)
  }

  /** The members' pages are protected. */
  lemma ProtectedRoutes()
    ensures GuardOf("/home") == Some(Protected)
    ensures GuardOf("/post/:id") == Some(Protected)
    ensures GuardOf("/create") == Some(Protected)
    ensures GuardOf("/my-posts") == Some(Protected)
    ensures GuardOf("/edit/:id") == Some(Protected)
  {
    LookupEachRoute(1);
    LookupEachRoute(2);
    LookupEachRoute(6);
    LookupEachRoute(7);
    LookupEachRoute(8);
  }

  /** The dashboard is admin-only, the sign-in pages are open, and `/` picks its page itself. */
  lemma OtherRoutes()
    ensures GuardOf("/admin/dashboard") == Some(AdminOnly)
    ensures GuardOf("/login") == Some(Unguarded)
    ensures GuardOf("/signup") == Some(Unguarded)
    ensures GuardOf("/verify-email") == Some(Unguarded)
    ensures GuardOf("/") == Some(PublicHomeGuard)
  {
    LookupEachRoute(9);
    LookupEachRoute(3);
    LookupEachRoute(4);
    LookupEachRoute(5);
    LookupEachRoute(0);
  }

  /** A route's guard fits its page: members' pages are protected, the dashboard is
      admin-only, and only the sign-in pages are open. */
  predicate GuardFits(r: Route) {
    && (r.page in {PostDetailPage, CreatePostPage, MyPostsPage, EditPostPage} ==> r.guard == Protected)
    && (r.page == HomePage ==> r.guard in {Protected, PublicHomeGuard})
    && (r.page == AdminDashboardPage ==> r.guard == AdminOnly)
    && (r.guard == Unguarded ==> r.page in {LoginPage, SignupPage, VerifyEmailPage})
  }

  lemma AllRoutesFit()
    ensures forall r :: r in Routes ==> GuardFits(r)
  {
    forall r | r in Routes ensures GuardFits(r) {
      var i :| 0 <= i < |Routes| && Routes[i] == r;
    }
  }

  /** A route whose guard fits its page shows a members' page only to a session user,
      and the dashboard only to an admin. */
  lemma FittingRouteNeedsSession(route: Route, user: Option<User>, loading: bool)
    requires GuardFits(route)
    ensures var r := RenderRoute(route, user, loading);
      && (r.RenderPage? && r.page in {PostDetailPage, CreatePostPage, MyPostsPage, EditPostPage, HomePage}
          ==> user.Some?)
      && (r == RenderPage(AdminDashboardPage) ==> user.Some? && user.value.role == Admin)
  {
  }

  /** No guarded page is ever rendered without a session user, and the dashboard only
      for an admin. */
  lemma GuardedPagesNeedSession(path: string, user: Option<User>, loading: bool)
    requires Render(path, user, loading).Some?
    ensures var r := Render(path, user, loading).value;
      && (r.RenderPage? && r.page in {PostDetailPage, CreatePostPage, MyPostsPage, EditPostPage, HomePage}
          ==> user.Some?)
      && (r == RenderPage(AdminDashboardPage) ==> user.Some? && user.value.role == Admin)
  {
    var route := Lookup(Routes, path).value;
    AllRoutesFit();
    FittingRouteNeedsSession(route, user, loading);
  }
}
