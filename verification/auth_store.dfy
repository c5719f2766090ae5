/** The client-side session store: a triple `(user, isAdmin, isLoading)`
    and the actions `setUser`, `signIn`, `signOut` and `checkSession`.
    Each backend call is replaced by the response it produced, so every
    action is a pure function from the old state and that response to the
    state observers see while the call is outstanding, the state it
    settles in, and how the action's promise settles. */
module AuthStore {
  import opened Common
  import Text

  /** The fields of the provider's user record that the client reads. */
  datatype User = User(id: string, email: Option<string>)

  /** The single hard-coded administrator address. */
  const AdminEmail: string := "admin@admin.com"

  /** `user?.email?.toLowerCase() === 'admin@admin.com'`. */
  function IsAdminUser(user: Option<User>): (r: bool)
    ensures r ==> user.Some? && user.value.email.Some?
    ensures r ==> |user.value.email.value| == |AdminEmail|
  {
    user.Some? && user.value.email.Some? && Text.Lower(user.value.email.value) == AdminEmail
  }

  datatype State = State(user: Option<User>, isAdmin: bool, isLoading: bool)

  /** The flag agrees with the one derived from the stored user; in
      particular it is never set while no user is stored. */
  predicate Consistent(s: State)
  {
    s.isAdmin == IsAdminUser(s.user)
  }

  /** What one action does: `pending` is the state written by its first
      `set({ isLoading: true })`, visible while the backend call is
      outstanding; `final` is the state it settles in. */
  datatype Step<+T> = Step(pending: State, final: State, completion: Completion<T>)

  /** Responses of the three backend calls. `signInWithPassword` either
      yields `data.user` (possibly null) or an error, whether returned or
      thrown. `signOut` may resolve cleanly, resolve with an `{ error }`
      the store never inspects, or reject. `getSession` yields
      `session?.user` or an error. */
  datatype SignInResponse = SignedIn(user: Option<User>) | SignInRejected(error: Error)
  datatype SignOutResponse = SignedOut | SignOutReportedError(reported: Error) | SignOutThrew(error: Error)
  datatype SessionResponse = SessionFound(sessionUser: Option<User>) | SessionFailed(error: Error)

  /** The store's initial value: no user, not an administrator, loading. */
  function Initial(): (s: State)
    ensures s.user.None? && !s.isAdmin && s.isLoading
    ensures Consistent(s)
  {
    State(None, false, true)
  }

  /** `set({ isLoading: true })`, the first statement of every action. */
  function Begin(s: State): State
  {
    s.(isLoading := true)
  }

  /** `setUser`: stores the user and the flag derived from its e-mail;
      the loading flag is left alone. */
  function SetUser(s: State, user: Option<User>): (r: State)
    ensures r.user == user && r.isLoading == s.isLoading
    ensures r.isAdmin <==> IsAdminUser(user)
    ensures Consistent(r)
  {
    State(user, IsAdminUser(user), s.isLoading)
  }

  /** `signIn`: on success stores the returned user and derived flag and
      returns the flag; on failure only clears `isLoading` and rethrows. */
  function SignIn(s: State, response: SignInResponse): (r: Step<bool>)
    ensures r.pending.isLoading && r.pending.user == s.user && r.pending.isAdmin == s.isAdmin
    ensures !r.final.isLoading
    ensures response.SignedIn? ==>
      && r.final.user == response.user
      && (r.final.isAdmin <==> IsAdminUser(response.user))
      && r.completion == Returned(r.final.isAdmin)
    ensures response.SignInRejected? ==>
      && r.final.user == s.user
      && r.final.isAdmin == s.isAdmin
      && r.completion == Threw(response.error)
    ensures Consistent(s) ==> Consistent(r.pending) && Consistent(r.final)
  {
    var pending := Begin(s);
    match response
    case SignedIn(user) =>
      var isAdmin := IsAdminUser(user);
      Step(pending, State(user, isAdmin, false), Returned(isAdmin))
    case SignInRejected(error) =>
      Step(pending, pending.(isLoading := false), Threw(error))
  }

  /** `signOut`: once the backend call resolves, whatever it resolved
      with, the session is cleared; only a rejected call leaves `user` and
      `isAdmin` as they were, clears `isLoading` and rethrows. */
  function SignOut(s: State, response: SignOutResponse): (r: Step<()>)
    ensures r.pending.isLoading && r.pending.user == s.user && r.pending.isAdmin == s.isAdmin
    ensures !r.final.isLoading
    ensures !response.SignOutThrew? ==>
      r.final.user.None? && !r.final.isAdmin && r.completion.Returned?
    ensures response.SignOutThrew? ==>
      && r.final.user == s.user
      && r.final.isAdmin == s.isAdmin
      && r.completion == Threw(response.error)
    ensures Consistent(s) ==> Consistent(r.pending) && Consistent(r.final)
  {
    var pending := Begin(s);
    match response
    case SignOutThrew(error) =>
      Step(pending, pending.(isLoading := false), Threw(error))
    case _ =>
      Step(pending, State(None, false, false), Returned(()))
  }

  /** `checkSession`: always settles with `isLoading` false and never
      rethrows; a missing session or any error signs the user out. */
  function CheckSession(s: State, response: SessionResponse): (r: Step<()>)
    ensures r.pending.isLoading && r.pending.user == s.user && r.pending.isAdmin == s.isAdmin
    ensures !r.final.isLoading
    ensures r.completion.Returned?
    ensures response.SessionFound? ==>
      r.final.user == response.sessionUser && (r.final.isAdmin <==> IsAdminUser(response.sessionUser))
    ensures response.SessionFailed? ==> r.final.user.None? && !r.final.isAdmin
    ensures Consistent(r.final)
    ensures Consistent(s) ==> Consistent(r.pending)
  {
    var pending := Begin(s);
    match response
    case SessionFound(Some(user)) =>
      var isAdmin := IsAdminUser(Some(user));
      Step(pending, State(Some(user), isAdmin, false), Returned(()))
    case SessionFound(None) =>
      Step(pending, State(None, false, false), Returned(()))
    case SessionFailed(_) =>
      Step(pending, State(None, false, false), Returned(()))
  }

  /** One call of a store action, together with the backend's response. */
  datatype Event =
    | SetUserEvent(user: Option<User>)
    | SignInEvent(signIn: SignInResponse)
    | SignOutEvent(signOut: SignOutResponse)
    | CheckSessionEvent(session: SessionResponse)

  /** The states an event makes observable, in order. */
  function Observe(s: State, e: Event): (r: seq<State>)
    ensures |r| > 0
  {
    match e
    case SetUserEvent(user) => [SetUser(s, user)]
    case SignInEvent(response) => var step := SignIn(s, response); [step.pending, step.final]
    case SignOutEvent(response) => var step := SignOut(s, response); [step.pending, step.final]
    case CheckSessionEvent(response) => var step := CheckSession(s, response); [step.pending, step.final]
  }

  /** Every state observable while running `events` one after another
      from `s` (actions are treated as atomic start/finish pairs). */
  function Trace(s: State, events: seq<Event>): seq<State>
    decreases |events|
  {
    if |events| == 0 then []
    else
      var obs := Observe(s, events[0]);
      obs + Trace(obs[|obs| - 1], events[1..])
  }

  /** Every state observed along a run from a consistent state is
      consistent: `isAdmin` is never true while `user` is null. */
  lemma {:induction false} TraceConsistent(s: State, events: seq<Event>)
    requires Consistent(s)
    ensures forall i :: 0 <= i < |Trace(s, events)| ==> Consistent(Trace(s, events)[i])
    decreases |events|
  {
    if |events| > 0 {
      var obs := Observe(s, events[0]);
      assert forall i :: 0 <= i < |obs| ==> Consistent(obs[i]) by {
        match events[0]
        case SetUserEvent(user) =>
        case SignInEvent(response) =>
        case SignOutEvent(response) =>
        case CheckSessionEvent(response) =>
      }
      TraceConsistent(obs[|obs| - 1], events[1..]);
    }
  }

  /** The invariant for every state reachable from the store's initial
      value: no observable state has `isAdmin` without a user. */
  lemma ReachableStatesConsistent(events: seq<Event>)
    ensures forall i :: 0 <= i < |Trace(Initial(), events)| ==>
      var t := Trace(Initial(), events)[i];
      (t.isAdmin ==> t.user.Some?) && Consistent(t)
  {
    TraceConsistent(Initial(), events);
  }

  /** The administrator test ignores case: a stored e-mail makes the user
      an administrator iff each character is the address's character or
      its upper-case form. */
  lemma AdminEmailIgnoresCase(id: string, email: string)
    ensures IsAdminUser(Some(User(id, Some(email)))) <==>
      |email| == |AdminEmail| &&
      forall i :: 0 <= i < |email| ==> email[i] == AdminEmail[i] || email[i] == Text.UpperChar(AdminEmail[i])
  {
  }

  /** A mixed-case spelling of the address is recognised. */
  lemma MixedCaseAdmin()
    ensures IsAdminUser(Some(User("u1", Some("Admin@Admin.COM"))))
    ensures !IsAdminUser(Some(User("u1", Some("admin@admin.co"))))
    ensures !IsAdminUser(Some(User("u1", None)))
  {
  }
}
