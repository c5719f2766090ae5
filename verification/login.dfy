/** The login page: where it sends a signed-in user, when its submit
    button is enabled, and what it reports after a submission. */
module Login {
  import opened Common
  import AuthStore
  import Router

  /** `state?.from?.pathname || '/dashboard'`: the remembered origin, or
      the dashboard when there is none or its path is empty. */
  function From(state: Router.LocationState): (r: string)
    ensures state.FromState? && state.from.pathname != "" ==> r == state.from.pathname
    ensures !(state.FromState? && state.from.pathname != "") ==> r == Router.DashboardPath
    ensures r != ""
  {
    match state
    case FromState(from) => OrElse(Some(from.pathname), Router.DashboardPath)
    case NoState => Router.DashboardPath
  }

  /** The navigation effect: nothing while loading or without a user;
      otherwise `/admin` for an administrator (the origin is ignored) and
      the origin for everyone else, always replacing history. */
  function Redirect(s: AuthStore.State, from: string): (r: Option<Router.Navigation>)
    ensures r.Some? <==> !s.isLoading && s.user.Some?
    ensures r.Some? ==> r.value.replace && r.value.state == Router.NoState
    ensures r.Some? && s.isAdmin ==> r.value.to == Router.AdminPath
    ensures r.Some? && !s.isAdmin ==> r.value.to == from
  {
    if !s.isLoading && s.user.Some? then
      Some(Router.Navigation(if s.isAdmin then Router.AdminPath else from, true, Router.NoState))
    else None
  }

  /** `!email || !password || isLoading`. */
  function SubmitDisabled(email: string, password: string, isLoading: bool): (disabled: bool)
    ensures !disabled <==> |email| > 0 && |password| > 0 && !isLoading
  {
    email == "" || password == "" || isLoading
  }

  const LoginFailed: string := "Login failed!"
  const LoginSucceeded: string := "Successfully logged in!"

  datatype Toast = SuccessToast(text: string) | ErrorToast(text: string)

  /** What `handleSubmit` reports once `signIn` settles: success, or the
      error's message falling back to a fixed text when it has none. */
  function Feedback(c: Completion<bool>): (t: Toast)
    ensures c.Returned? <==> t == SuccessToast(LoginSucceeded)
    ensures c.Threw? && c.error.message.Some? && c.error.message.value != "" ==>
      t == ErrorToast(c.error.message.value)
    ensures c.Threw? && (c.error.message.None? || c.error.message.value == "") ==>
      t == ErrorToast(LoginFailed)
  {
    match c
    case Returned(_) => SuccessToast(LoginSucceeded)
    case Threw(error) => ErrorToast(OrElse(error.message, LoginFailed))
  }
}
