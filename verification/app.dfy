/** The application shell: a global loading gate in front of the route
    table `/login`, `/dashboard`, `/admin` and the catch-all. */
module App {
  import opened Common
  import AuthStore
  import Router
  import ProtectedRoute

  datatype Page = LoginPage | UserDashboardPage | AdminDashboardPage

  /** What the route table attaches to a path. */
  datatype Route =
    | Open(page: Page)
    | Protected(page: Page, requireAdmin: bool)
    | Fallback

  /** The route table; paths are matched exactly. */
  function RouteFor(path: string): (r: Route)
    ensures r == Open(LoginPage) <==> path == Router.LoginPath
    ensures r == Protected(UserDashboardPage, false) <==> path == Router.DashboardPath
    ensures r == Protected(AdminDashboardPage, true) <==> path == Router.AdminPath
    ensures r == Fallback <==> path !in {Router.LoginPath, Router.DashboardPath, Router.AdminPath}
  {
    if path == Router.LoginPath then Open(LoginPage)
    else if path == Router.DashboardPath then Protected(UserDashboardPage, false)
    else if path == Router.AdminPath then Protected(AdminDashboardPage, true)
    else Fallback
  }

  /** What the application shows. */
  datatype Screen =
    | GlobalLoading
    | GuardPlaceholder
    | Show(page: Page)
    | Navigate(navigation: Router.Navigation)

  /** The whole application for one store state and location. While
      loading, only the global loading view shows, for every path; because
      that gate comes first, the guard's own placeholder is never reached. */
  function View(s: AuthStore.State, location: Router.Location): (r: Screen)
    ensures r == GlobalLoading <==> s.isLoading
    ensures r != GuardPlaceholder
  {
    if s.isLoading then GlobalLoading
    else match RouteFor(location.pathname)
      case Open(page) => Show(page)
      case Protected(page, requireAdmin) =>
        (match ProtectedRoute.Guard(s, location, requireAdmin)
         case Placeholder => GuardPlaceholder
         case Redirect(navigation) => Navigate(navigation)
         case Render => Show(page))
      case Fallback => Navigate(Router.Navigation(Router.LoginPath, true, Router.NoState))
  }

  /** `/login` is reachable in every loaded state. */
  lemma LoginUnguarded(s: AuthStore.State, location: Router.Location)
    requires !s.isLoading && location.pathname == Router.LoginPath
    ensures View(s, location) == Show(LoginPage)
  {
  }

  /** Unknown paths redirect to `/login`, replacing history, with no
      remembered origin. */
  lemma UnknownPathsGoToLogin(s: AuthStore.State, location: Router.Location)
    requires !s.isLoading
    requires location.pathname !in {Router.LoginPath, Router.DashboardPath, Router.AdminPath}
    ensures View(s, location) == Navigate(Router.Navigation(Router.LoginPath, true, Router.NoState))
  {
  }

  /** The administrator page shows exactly when loading is over, a user
      is stored, the flag is set and the path is `/admin`. */
  lemma AdminPageIff(s: AuthStore.State, location: Router.Location)
    ensures View(s, location) == Show(AdminDashboardPage) <==>
      location.pathname == Router.AdminPath && !s.isLoading && s.user.Some? && s.isAdmin
  {
  }

  /** The user dashboard shows exactly when loading is over, a user is
      stored and the path is `/dashboard`; administrators included. */
  lemma DashboardPageIff(s: AuthStore.State, location: Router.Location)
    ensures View(s, location) == Show(UserDashboardPage) <==>
      location.pathname == Router.DashboardPath && !s.isLoading && s.user.Some?
  {
  }

  /** With no user, each guarded path redirects to `/login` and
      remembers the location it came from. */
  lemma GuardedPathsRememberOrigin(s: AuthStore.State, location: Router.Location)
    requires !s.isLoading && s.user.None?
    requires location.pathname in {Router.DashboardPath, Router.AdminPath}
    ensures View(s, location) == Navigate(Router.Navigation(Router.LoginPath, true, Router.FromState(location)))
  {
  }
}
