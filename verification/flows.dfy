/** How the store, the guard, the application shell and the pages work
    together across a navigation. */
module Flows {
  import opened Common
  import AuthStore
  import Router
  import ProtectedRoute
  import App
  import Login
  import UserDashboard
  import AdminDashboard
  import Tickets
  import Text

  /** A visitor without a session who opens a guarded page is sent to
      the login page, which reads the remembered path back; after a
      non-administrator signs in, the login page returns to that path. */
  lemma NonAdminReturnsToOrigin(s: AuthStore.State, location: Router.Location, user: AuthStore.User)
    requires !s.isLoading && s.user.None?
    requires location.pathname in {Router.DashboardPath, Router.AdminPath}
    requires !AuthStore.IsAdminUser(Some(user))
    ensures App.View(s, location).Navigate?
    ensures var navigation := App.View(s, location).navigation;
      && navigation.to == Router.LoginPath
      && Login.From(navigation.state) == location.pathname
      && Login.Redirect(AuthStore.SignIn(s, AuthStore.SignedIn(Some(user))).final, Login.From(navigation.state))
         == Some(Router.Navigation(location.pathname, true, Router.NoState))
  {
  }

  /** An administrator who signs in lands on `/admin` whatever origin was
      remembered, and that page then shows. */
  lemma AdminLandsOnAdminPage(s: AuthStore.State, user: AuthStore.User, from: string)
    requires AuthStore.IsAdminUser(Some(user))
    ensures var final := AuthStore.SignIn(s, AuthStore.SignedIn(Some(user))).final;
      && Login.Redirect(final, from) == Some(Router.Navigation(Router.AdminPath, true, Router.NoState))
      && App.View(final, Router.Location(Router.AdminPath, Router.NoState)) == App.Show(App.AdminDashboardPage)
  {
  }

  /** A rejected sign-in from a signed-out store settles not loading,
      with no user and no administrator flag, rethrows the provider's
      error, and leaves the visitor on the login page with that error. */
  lemma RejectedSignInStaysOnLogin(s: AuthStore.State, error: Error, from: string)
    requires AuthStore.Consistent(s) && s.user.None?
    ensures var step := AuthStore.SignIn(s, AuthStore.SignInRejected(error));
      && !step.final.isLoading && step.final.user.None? && !step.final.isAdmin
      && step.completion == Threw(error)
      && Login.Redirect(step.final, from).None?
      && App.View(step.final, Router.Location(Router.LoginPath, Router.NoState)) == App.Show(App.LoginPage)
      && Login.Feedback(step.completion) == Login.ErrorToast(OrElse(error.message, Login.LoginFailed))
  {
    ProviderMessageReachesPage(s, error);
  }

  /** While a sign-in is outstanding the submit button is disabled, so a
      second submission cannot start. */
  lemma NoSecondSubmitWhileSigningIn(s: AuthStore.State, response: AuthStore.SignInResponse, email: string, password: string)
    ensures Login.SubmitDisabled(email, password, AuthStore.SignIn(s, response).pending.isLoading)
  {
  }

  /** The error the store rethrows is the provider's, so its message (or
      the fixed fallback) is what the login page reports. */
  lemma ProviderMessageReachesPage(s: AuthStore.State, error: Error)
    ensures Login.Feedback(AuthStore.SignIn(s, AuthStore.SignInRejected(error)).completion)
      == Login.ErrorToast(OrElse(error.message, Login.LoginFailed))
  {
  }

  /** From a signed-in store, the user dashboard navigates to `/login`
      after signing out exactly when the store was cleared. */
  lemma SignOutNavigatesIffCleared(s: AuthStore.State, response: AuthStore.SignOutResponse)
    requires s.user.Some?
    ensures UserDashboard.AfterSignOut(AuthStore.SignOut(s, response).completion).Some?
      <==> AuthStore.SignOut(s, response).final.user.None?
  {
  }

  /** A ticket submitted by a user without an e-mail is stored with a
      null `user_email`; the admin search then throws on it for any term
      that its title and description do not contain. */
  lemma EmaillessTicketBreaksSearch(
    form: UserDashboard.TicketForm, user: AuthStore.User,
    tickets: seq<Tickets.Ticket>, i: int, searchTerm: string)
    requires user.email.None?
    requires 0 <= i < |tickets|
    requires tickets[i].userEmail == UserDashboard.Record(form, Some(user)).userEmail
    requires !Text.Includes(Text.Lower(tickets[i].title), Text.Lower(searchTerm))
    requires !Text.Includes(Text.Lower(tickets[i].description), Text.Lower(searchTerm))
    ensures AdminDashboard.FilterTickets(tickets, searchTerm).None?
  {
    assert AdminDashboard.MatchOutcome(tickets[i], searchTerm).None?;
  }

  /** A sign-in that fails while a user is stored keeps that user, so
      the guarded pages stay open. */
  lemma RejectedSignInKeepsSession(s: AuthStore.State, error: Error, location: Router.Location)
    requires !s.isLoading && s.user.Some? && location.pathname == Router.DashboardPath
    ensures App.View(AuthStore.SignIn(s, AuthStore.SignInRejected(error)).final, location)
      == App.Show(App.UserDashboardPage)
  {
  }

  /** Once a sign-out resolves, even with an error the store ignores,
      every guarded page redirects to the login page. */
  lemma SignOutClosesGuardedPages(s: AuthStore.State, response: AuthStore.SignOutResponse, location: Router.Location)
    requires !response.SignOutThrew?
    requires location.pathname in {Router.DashboardPath, Router.AdminPath}
    ensures App.View(AuthStore.SignOut(s, response).final, location)
      == App.Navigate(Router.Navigation(Router.LoginPath, true, Router.FromState(location)))
  {
  }

  /** While a session check is outstanding only the loading view shows;
      once it settles the loading view is gone, and a failed check
      leaves the guarded pages closed. */
  lemma SessionCheckReleasesGate(s: AuthStore.State, response: AuthStore.SessionResponse, location: Router.Location)
    ensures App.View(AuthStore.CheckSession(s, response).pending, location) == App.GlobalLoading
    ensures App.View(AuthStore.CheckSession(s, response).final, location) != App.GlobalLoading
    ensures response.SessionFailed? && location.pathname in {Router.DashboardPath, Router.AdminPath} ==>
      App.View(AuthStore.CheckSession(s, response).final, location).Navigate?
  {
  }

  /** No redirect loop between the dashboards: an administrator on
      `/dashboard` is moved to `/admin`, which shows; a non-administrator
      on `/admin` is moved to `/dashboard`, which shows. */
  lemma DashboardsDoNotLoop(s: AuthStore.State)
    requires !s.isLoading && s.user.Some?
    ensures s.isAdmin ==>
      && App.View(s, Router.Location(Router.DashboardPath, Router.NoState)) == App.Show(App.UserDashboardPage)
      && UserDashboard.OnMount(s.isAdmin).navigation == Some(Router.Navigation(Router.AdminPath, false, Router.NoState))
      && App.View(s, Router.Location(Router.AdminPath, Router.NoState)) == App.Show(App.AdminDashboardPage)
    ensures !s.isAdmin ==>
      && App.View(s, Router.Location(Router.AdminPath, Router.NoState))
         == App.Navigate(Router.Navigation(Router.DashboardPath, true, Router.NoState))
      && App.View(s, Router.Location(Router.DashboardPath, Router.NoState)) == App.Show(App.UserDashboardPage)
      && UserDashboard.OnMount(s.isAdmin).navigation.None?
  {
  }
}
