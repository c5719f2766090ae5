/** The navigation values the client hands to its router: the current
    location with its history state, and a requested navigation. */
module Router {

  const LoginPath: string := "/login"
  const DashboardPath: string := "/dashboard"
  const AdminPath: string := "/admin"

  /** A location: its path and the state it was pushed with. */
  datatype Location = Location(pathname: string, state: LocationState)

  /** History state; the client only ever pushes `{ from: location }`. */
  datatype LocationState = NoState | FromState(from: Location)

  /** `navigate(to, { replace, state })` or `<Navigate to replace state/>`. */
  datatype Navigation = Navigation(to: string, replace: bool, state: LocationState)
}
