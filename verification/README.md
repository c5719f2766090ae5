# IT-support ticketing client — session gating and ticket helpers in Dafny

This project models the decision logic of a small IT-support ticketing web
client. End users create and list their own tickets. An administrator lists,
searches and re-classifies all tickets. Authentication and storage belong to
a hosted backend. What the client decides for itself is modelled here:

- the session store: a triple `(user, isAdmin, isLoading)` and the actions
  `setUser`, `signIn`, `signOut` and `checkSession` (module `AuthStore`);
- the route guard, which decides between a placeholder, a redirect to
  `/login` carrying the requested location, a redirect to `/dashboard`,
  or rendering the page (module `ProtectedRoute`);
- the application shell: a global loading gate in front of the route
  table `/login`, `/dashboard`, `/admin` and the catch-all (module `App`);
- the login page: the remembered origin, the post-login navigation, the
  submit-button predicate and the failure message (module `Login`);
- the administrator dashboard: the status-filtered query, the
  case-insensitive search and the status update (module `AdminDashboard`);
- the user dashboard: form defaults, the inserted record, the reset after
  a successful submission, the administrator redirect, the per-user query
  and the display helpers (module `UserDashboard`).

Shared pieces live in `Common` (optional values, backend errors, how an
action settles), `Text` (ASCII case mapping, `includes`, `replace` of the
first match, capitalisation), `Router` (locations and navigations) and
`Tickets` (the ticket row, queries, how a fetch settles, status badge and
label). `Flows` holds lemmas that follow a visitor across the store, the
guard, the shell and the pages.

Every backend call is replaced by the response it produced, as a parameter.
Each store action is a pure function. It returns the state that observers
see while the call is outstanding (`pending`, with `isLoading` set), the
state it settles in (`final`), and whether its promise returns or rethrows.
A sequence of actions is a `Trace` of observable states. The central
invariant is that `isAdmin` always equals the flag derived from the stored
user's e-mail. It follows that `isAdmin` is never true without a user, and
this is proved for every state reachable from the initial one.

Where the code and the design description of the system disagree, the model
follows the code:

- A rejected `signIn` only clears `isLoading`. The previous `user` and
  `isAdmin` are kept, not reset to signed-out.
- A `signOut` call that rejects keeps the user, clears `isLoading` and
  rethrows. If the backend *resolves* with an error object, the store never
  looks at it and clears the session as on success
  (`AuthStore.SignOutReportedError`).
- The remembered origin on the login page uses `||`, so an empty path falls
  back to `/dashboard`. The failure message also falls back to
  `Login failed!` when the message is empty.
- After sign-in, an administrator is sent to `/admin` whatever destination
  was remembered (`Login.Redirect`). Only other users return to the
  remembered destination.

The model also records that the admin ticket search can throw. A ticket
stored with a null `user_email` makes the search callback fail when neither
its title nor its description matches. A user without an e-mail inserts such
a ticket (`Flows.EmaillessTicketBreaksSearch`).

## Model

| member | source | states |
|---|---|---|
| AuthStore.Initial | src/store/authStore.ts:16-18 | the store starts with no user, not an administrator and loading, which satisfies the invariant |
| AuthStore.SetUser | src/store/authStore.ts:20-24 | stores the user and sets `isAdmin` iff the user's lower-cased e-mail is the administrator address; the loading flag is untouched; the result satisfies the invariant |
| AuthStore.SignIn | src/store/authStore.ts:26-42 | loading is set before the call and cleared after it; on success the returned user and its derived flag are stored and the flag is returned; on failure user and flag are unchanged and the same error is rethrown; the invariant is preserved in both states |
| AuthStore.SignOut | src/store/authStore.ts:44-54 | loading is set before the call and cleared after; a resolved call (even one reporting an error) clears user and flag; a rejected call keeps user and flag and rethrows; the invariant is preserved |
| AuthStore.CheckSession | src/store/authStore.ts:56-75 | loading is set before the call and is always cleared afterwards; no error escapes; a found session stores its user with the derived flag; a missing session or an error signs out; the final state always satisfies the invariant |
| AuthStore.TraceConsistent | src/store/authStore.ts:15-76 | every state observed along any run of actions from a consistent state, pending or final, satisfies the invariant |
| AuthStore.ReachableStatesConsistent | src/store/authStore.ts:15-76 | from the initial store, no observable state ever has `isAdmin` true while `user` is null |
| AuthStore.IsAdminUser | src/store/authStore.ts:23 | the administrator test holds only for a present user with a present e-mail of the administrator address's length |
| AuthStore.AdminEmailIgnoresCase | src/store/authStore.ts:23 | a user is the administrator iff its e-mail has the address's length and each character is the address's character or its upper-case form |
| AuthStore.MixedCaseAdmin | src/store/authStore.ts:34 | `Admin@Admin.COM` is recognised as the administrator; a different address or a missing e-mail is not |
| ProtectedRoute.Guard | src/ProtectedRoute.tsx:12-35 | placeholder iff loading; render iff loaded, a user is present and the route is not admin-only or the user is an administrator; redirect to `/login` iff loaded without a user, carrying the current location; redirect to `/dashboard` iff loaded with a non-administrator on an admin-only route; redirects replace history |
| ProtectedRoute.NoRedirectWhileLoading | src/ProtectedRoute.tsx:16-22 | while loading the decision is the placeholder and does not depend on `requireAdmin` |
| ProtectedRoute.NonAdminNeverSentToLogin | src/ProtectedRoute.tsx:29-32 | a signed-in non-administrator on an admin-only route is redirected to `/dashboard`, not to `/login` |
| ProtectedRoute.DefaultIsPlainGuard | src/ProtectedRoute.tsx:12 | an omitted `requireAdmin` means false, so the administrator flag never changes the decision |
| App.RouteFor | src/App.tsx:30-50 | `/login` is the unguarded login page, `/dashboard` the user page guarded without the admin requirement, `/admin` the admin page guarded with it, and every other path the catch-all |
| App.View | src/App.tsx:18-25 | the global loading view shows iff the store is loading, for every path, and the guard's own placeholder is never shown |
| App.LoginUnguarded | src/App.tsx:31 | once loaded, `/login` shows the login page whatever the session |
| App.UnknownPathsGoToLogin | src/App.tsx:49 | once loaded, an unknown path redirects to `/login`, replacing history, with no remembered origin |
| App.AdminPageIff | src/App.tsx:40-47 | the admin page shows iff the path is `/admin`, loading is over, a user is present and the flag is set |
| App.DashboardPageIff | src/App.tsx:32-39 | the user page shows iff the path is `/dashboard`, loading is over and a user is present |
| App.GuardedPathsRememberOrigin | src/App.tsx:32-47 | without a user, both guarded paths redirect to `/login` and remember the location they came from |
| Common.OrElse | src/pages/Login.tsx:23 | JavaScript `a \|\| b` on strings: a present, non-empty value wins, otherwise the fallback |
| Login.From | src/pages/Login.tsx:23 | the origin is the remembered location's path when there is one and it is non-empty, otherwise `/dashboard`; it is never empty |
| Login.Redirect | src/pages/Login.tsx:26-30 | the page navigates iff loading is over and a user is present; the target is `/admin` for an administrator whatever the origin, otherwise the origin; history is replaced |
| Login.SubmitDisabled | src/pages/Login.tsx:90 | the button is enabled iff e-mail and password are non-empty and the store is not loading |
| Login.Feedback | src/pages/Login.tsx:32-42 | a returned sign-in reports success; a rethrown one reports the error's message, or `Login failed!` when the message is missing or empty |
| Tickets.FinishFetch | src/pages/AdminDashboard.tsx:25-33 | after a fetch `loading` is false in every outcome; fetched rows replace the list, null data gives the empty list, an error keeps the list (the user dashboard's fetch at UserDashboard.tsx:45-51 is the same code) |
| Tickets.StatusBadge | src/pages/AdminDashboard.tsx:171-177 | `open` is green, `in_progress` is yellow, and every other status is blue, each in both directions |
| Tickets.FetchRunShowsLastSuccess | src/pages/AdminDashboard.tsx:25-33 | after any sequence of fetches, the list holds the rows of the last successful one, or the earlier list if none succeeded; after at least one fetch `loading` is false |
| Tickets.DashboardListAfterFetches | src/pages/AdminDashboard.tsx:8-33 | starting from the dashboard's initial empty, loading list, any non-empty sequence of fetches ends not loading and showing the last successful fetch's rows, or nothing if none succeeded |
| Tickets.StatusLabel | src/pages/AdminDashboard.tsx:178 | the label has the status's length and differs from it only where an underscore became a space |
| Tickets.StatusLabels | src/pages/UserDashboard.tsx:270 | `in_progress` is shown as `in progress`, `open` unchanged, and only the first of several underscores is replaced |
| Tickets.StatusLabelChangesOneCharacter | src/pages/AdminDashboard.tsx:178 | the label has the status's length, differs from it in at most one position, and equals it when there is no underscore |
| Text.ReplaceFirst | src/pages/UserDashboard.tsx:270 | position by position, the result holds the replacement exactly at the first occurrence of the pattern character and the original character everywhere else |
| Text.Lower | src/pages/AdminDashboard.tsx:66 | ASCII `toLowerCase`: same length, each character lower-cased, no upper-case letter left, other characters unchanged |
| Text.Includes | src/pages/AdminDashboard.tsx:66-68 | `includes`: the empty term is always found, and a term longer than the text never is |
| Text.IncludesIff | src/pages/AdminDashboard.tsx:66 | the left-to-right scan reports a match iff the term occurs at some position of the text |
| Text.IncludesEmpty | src/pages/AdminDashboard.tsx:65-69 | every text includes the empty term |
| Text.LowerEqualsIff | src/store/authStore.ts:66 | against a lower-case target, lower-cased equality holds iff every character is the target's or its upper-case form |
| Text.Capitalize | src/pages/UserDashboard.tsx:274 | the result has the input's length, its first character is upper-cased and the rest is unchanged; the empty string stays empty |
| AdminDashboard.FetchQuery | src/pages/AdminDashboard.tsx:16-23 | the query reads `tickets` ordered by `created_at` descending, with no filter for `all` and exactly the filter `status = filterStatus` otherwise |
| AdminDashboard.FetchQueryAdmits | src/pages/AdminDashboard.tsx:21-23 | a row is admitted iff the filter is `all` or the row has the chosen status |
| AdminDashboard.MatchOutcome | src/pages/AdminDashboard.tsx:66-68 | the search callback throws only on a ticket with a null e-mail, and an empty term matches every ticket |
| AdminDashboard.FilterTickets | src/pages/AdminDashboard.tsx:65-69 | the search throws iff the callback throws on some ticket; otherwise the result is an order-preserving subsequence of the list, no longer than it, that keeps each ticket whose lower-cased title, description or e-mail includes the lower-cased term as many times as the list holds it, and no other ticket |
| AdminDashboard.EmptySearchKeepsAll | src/pages/AdminDashboard.tsx:65 | an empty search never throws and keeps the whole list |
| AdminDashboard.SearchIdempotent | src/pages/AdminDashboard.tsx:65-69 | when the search does not throw, searching its result again with the same term gives the same result |
| AdminDashboard.SearchIgnoresTermCase | src/pages/AdminDashboard.tsx:66-68 | lower-casing the term first changes nothing |
| AdminDashboard.SetStatus | src/pages/AdminDashboard.tsx:40-45 | the status update keeps the table's length; rows with that id get the new status and keep every other field; other rows are unchanged |
| AdminDashboard.SetStatusIdempotent | src/pages/AdminDashboard.tsx:42-45 | applying the same status update twice equals applying it once |
| UserDashboard.DefaultForm | src/pages/UserDashboard.tsx:22-28 | the form starts with empty title and description, priority `low`, category `Hardware`, and today's date |
| UserDashboard.Record | src/pages/UserDashboard.tsx:57-68 | the inserted record has status `open`, copies title, description, priority, category and the expected date from the form, and carries the stored user's id and e-mail, or none without a user |
| UserDashboard.CreateTicket | src/pages/UserDashboard.tsx:54-85 | the record is built from the current form; a successful insert resets the form to its defaults, hides it and refetches; a failed insert changes nothing and does not refetch |
| UserDashboard.OnMount | src/pages/UserDashboard.tsx:30-35 | an administrator is navigated to `/admin`, pushing history; the list is fetched in every case |
| UserDashboard.FetchQuery | src/pages/UserDashboard.tsx:37-43 | the query reads `tickets` ordered by `created_at` descending, with the single filter `user_id` equal to the stored user's id |
| UserDashboard.FetchQueryAdmits | src/pages/UserDashboard.tsx:42 | a row is admitted iff a user is stored and the row's `user_id` is that user's id |
| UserDashboard.CreatedTicketsAreFetched | src/pages/UserDashboard.tsx:64 | a row stored from a submission of the signed-in user is admitted by that user's fetch |
| UserDashboard.PriorityLabel | src/pages/UserDashboard.tsx:274 | the label has the priority's length, its first character is not a lower-case letter, the rest is unchanged, and a priority that already starts without a lower-case letter is its own label |
| UserDashboard.PriorityLabels | src/pages/UserDashboard.tsx:274 | `low`, `medium` and `high` display as `Low`, `Medium` and `High` |
| UserDashboard.AfterSignOut | src/pages/UserDashboard.tsx:87-95 | a sign-out that returns navigates to `/login`; a rethrown one does not navigate |
| Flows.NonAdminReturnsToOrigin | src/pages/Login.tsx:23-30 | a visitor without a session who opens a guarded page is sent to `/login` carrying that page; the login page reads it back, and after a non-administrator signs in it navigates back to that page |
| Flows.AdminLandsOnAdminPage | src/pages/Login.tsx:28 | after an administrator signs in, the login page navigates to `/admin` whatever the origin, and the admin page then shows |
| Flows.RejectedSignInStaysOnLogin | src/store/authStore.ts:37-41 | a rejected sign-in from a signed-out store ends not loading, with no user and no flag, rethrows the provider's error, does not navigate, and shows the provider's message (or `Login failed!`) on the login page |
| Flows.NoSecondSubmitWhileSigningIn | src/pages/Login.tsx:90 | while a sign-in is outstanding the submit button is disabled, whatever the fields hold |
| Flows.ProviderMessageReachesPage | src/pages/Login.tsx:39 | the error a rejected sign-in rethrows is the provider's, so the login page shows its message, or `Login failed!` when it has none |
| Flows.SignOutNavigatesIffCleared | src/pages/UserDashboard.tsx:87-95 | from a signed-in store, the user dashboard navigates to `/login` after a sign-out exactly when the store's user was cleared |
| Flows.EmaillessTicketBreaksSearch | src/pages/AdminDashboard.tsx:68 | a ticket inserted for a user without an e-mail makes the admin search throw for every term that its title and description do not contain |
| Flows.RejectedSignInKeepsSession | src/store/authStore.ts:39 | a rejected sign-in while a user is stored leaves the user dashboard open |
| Flows.SignOutClosesGuardedPages | src/store/authStore.ts:47-48 | after a sign-out that resolves, with or without a reported error, both guarded pages redirect to `/login` |
| Flows.SessionCheckReleasesGate | src/App.tsx:18-25 | while a session check is outstanding only the loading view shows; afterwards it never shows; after a failed check the guarded pages redirect |
| Flows.DashboardsDoNotLoop | src/pages/UserDashboard.tsx:31-33 | an administrator on `/dashboard` is moved to `/admin`, which shows; a non-administrator on `/admin` is moved to `/dashboard`, which shows |

## Left out

- Backend calls (authentication, session lookup, table reads, inserts and updates) are not executed. Each one is a parameter holding the response it produced. How the backend applies filters and ordering is not modelled beyond the equality semantics in `Tickets.Admits`.
- An equality filter whose value is `undefined` (`user?.id` with no stored user) is taken by `Tickets.Admits` to admit no row. The backend's actual handling of that value is not part of this model.
- The `created_at` descending order is recorded in the query value. The model does not state that a returned list is sorted.
- Async interleaving: each store action is an atomic pair (pending state, final state). Two overlapping actions, and a backend call that never settles, are not modelled.
- The e-mail and password passed to `signIn` only reach the backend, so they are not parameters of `AuthStore.SignIn`.
- React rendering, JSX, CSS classes, icons, hook scheduling and store subscription. Effects are modelled as functions of their inputs (`Login.Redirect`, `UserDashboard.OnMount`).
- Toast notifications and console logging. `Login.Feedback` models only the text shown after a sign-in.
- Clock and locale: the form's default date is the parameter `today`. The `toLocaleString` rendering of `created_at` is not modelled.
- Fetched rows are taken to carry non-null `title` and `description`. The client always inserts both from required form fields. Only `user_email` can be null, and that case is modelled.
- Case mapping is ASCII only. Full Unicode `toLowerCase`/`toUpperCase` (for example, characters that change length) is not modelled.
- Route matching is exact string equality. The router's tolerance of a trailing slash and of letter case in paths is not modelled.
- Keystroke-level form edits (`setForm({ ...form, field })`), the show/hide toggle, the Cancel button and the Refresh buttons are plain field assignments. They are not modelled separately.
- After a successful status update the admin dashboard refetches and shows a toast. Only the update's effect on the table (`AdminDashboard.SetStatus`) is modelled.
- The admin dashboard's `handleSignOut` only calls the store and shows a toast. It is covered by `AuthStore.SignOut`.
