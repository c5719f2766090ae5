/** The route guard: a pure decision over the session store's state, the
    current location and whether the route is for administrators only. */
module ProtectedRoute {
  import opened Common
  import AuthStore
  import Router

  datatype Decision =
    | Placeholder                          // empty pending view while loading
    | Redirect(navigation: Router.Navigation)
    | Render                               // the guarded children

  /** The checks run in a fixed order: loading, then no user, then the
      administrator requirement. `requireAdmin` defaults to false. */
  function Guard(s: AuthStore.State, location: Router.Location, requireAdmin: bool := false): (d: Decision)
    ensures d == Placeholder <==> s.isLoading
    ensures d == Render <==> !s.isLoading && s.user.Some? && (!requireAdmin || s.isAdmin)
    ensures d.Redirect? ==> d.navigation.replace
    ensures d.Redirect? && d.navigation.to == Router.LoginPath <==> !s.isLoading && s.user.None?
    ensures d.Redirect? && d.navigation.to == Router.LoginPath ==>
      d.navigation.state == Router.FromState(location)
    ensures d.Redirect? && d.navigation.to == Router.DashboardPath <==>
      !s.isLoading && s.user.Some? && requireAdmin && !s.isAdmin
    ensures d.Redirect? && d.navigation.to == Router.DashboardPath ==>
      d.navigation.state == Router.NoState
  {
    if s.isLoading then Placeholder
    else if s.user.None? then
      Redirect(Router.Navigation(Router.LoginPath, true, Router.FromState(location)))
    else if requireAdmin && !s.isAdmin then
      Redirect(Router.Navigation(Router.DashboardPath, true, Router.NoState))
    else Render
  }

  /** While the store is loading the guard never redirects, whatever the
      route requires. */
  lemma NoRedirectWhileLoading(s: AuthStore.State, location: Router.Location, requireAdmin: bool)
    requires s.isLoading
    ensures Guard(s, location, requireAdmin) == Placeholder
    ensures Guard(s, location, requireAdmin) == Guard(s, location, !requireAdmin)
  {
  }

  /** A non-administrator on an administrator route is sent to the
      dashboard, never to the login view. */
  lemma NonAdminNeverSentToLogin(s: AuthStore.State, location: Router.Location)
    requires !s.isLoading && s.user.Some? && !s.isAdmin
    ensures Guard(s, location, true) == Redirect(Router.Navigation(Router.DashboardPath, true, Router.NoState))
  {
  }

  /** Omitting `requireAdmin` is the plain authenticated guard: an
      administrator flag never changes its decision. */
  lemma DefaultIsPlainGuard(s: AuthStore.State, location: Router.Location)
    ensures Guard(s, location) == Guard(s, location, false)
    ensures Guard(s, location) == Guard(s.(isAdmin := !s.isAdmin), location)
  {
  }
}
