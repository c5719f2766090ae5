/** The user dashboard: the ticket form, the record a submission inserts,
    the fetch of the user's own tickets, and its display helpers. */
module UserDashboard {
  import opened Common
  import Text
  import AuthStore
  import Router
  import Tickets

  /** The form's fields. */
  datatype TicketForm = TicketForm(
    title: string,
    description: string,
    priority: string,
    category: string,
    expectedDate: string)

  /** The form's initial (and reset) value; `today` stands for the date
      part of the clock's ISO timestamp. */
  function DefaultForm(today: string): (f: TicketForm)
    ensures f.title == "" && f.description == ""
    ensures f.priority == "low" && f.category == "Hardware"
    ensures f.expectedDate == today
  {
    TicketForm("", "", "low", "Hardware", today)
  }

  /** The payload inserted by `createTicket`; the user fields are
      `undefined` when no user is stored. */
  datatype NewTicket = NewTicket(
    title: string,
    description: string,
    priority: string,
    category: string,
    expectedDate: string,
    userId: Option<string>,
    userEmail: Option<string>,
    status: string)

  /** The record a submission inserts: form fields copied, the stored
      user's id and e-mail, and status `open`. */
  function Record(form: TicketForm, user: Option<AuthStore.User>): (r: NewTicket)
    ensures r.status == "open"
    ensures r.title == form.title && r.description == form.description
    ensures r.priority == form.priority && r.category == form.category
    ensures r.expectedDate == form.expectedDate
    ensures user.Some? ==> r.userId == Some(user.value.id) && r.userEmail == user.value.email
    ensures user.None? ==> r.userId.None? && r.userEmail.None?
  {
    var userId := if user.Some? then Some(user.value.id) else None;
    var userEmail := if user.Some? then user.value.email else None;
    NewTicket(form.title, form.description, form.priority, form.category,
              form.expectedDate, userId, userEmail, "open")
  }

  /** The form and whether it is shown. */
  datatype Editor = Editor(form: TicketForm, showForm: bool)

  datatype InsertResponse = Inserted | InsertFailed(error: Error)

  /** One submission: the record sent, the editor afterwards, and whether
      the list is fetched again. */
  datatype Submission = Submission(record: NewTicket, editor: Editor, refetch: bool)

  /** `createTicket`: after a successful insert the form is reset and
      hidden and the list refetched; after a failure nothing changes. */
  function CreateTicket(e: Editor, user: Option<AuthStore.User>, today: string, response: InsertResponse): (r: Submission)
    ensures r.record == Record(e.form, user)
    ensures response.Inserted? ==> r.editor == Editor(DefaultForm(today), false) && r.refetch
    ensures response.InsertFailed? ==> r.editor == e && !r.refetch
  {
    var record := Record(e.form, user);
    match response
    case Inserted => Submission(record, Editor(DefaultForm(today), false), true)
    case InsertFailed(_) => Submission(record, e, false)
  }

  /** The mount effect: an administrator is sent to `/admin` (pushing
      history); the list is fetched either way. */
  datatype MountEffect = MountEffect(navigation: Option<Router.Navigation>, fetch: bool)

  function OnMount(isAdmin: bool): (r: MountEffect)
    ensures r.fetch
    ensures r.navigation.Some? <==> isAdmin
    ensures r.navigation.Some? ==> r.navigation.value == Router.Navigation(Router.AdminPath, false, Router.NoState)
  {
    MountEffect(if isAdmin then Some(Router.Navigation(Router.AdminPath, false, Router.NoState)) else None, true)
  }

  /** `fetchTickets`' query: only the stored user's rows, newest first. */
  function FetchQuery(user: Option<AuthStore.User>): (q: Tickets.Query)
    ensures q.table == "tickets" && q.orderColumn == "created_at" && !q.ascending
    ensures |q.filters| == 1 && q.filters[0].column == "user_id"
    ensures user.Some? ==> q.filters[0].value == Some(user.value.id)
  {
    var userId := if user.Some? then Some(user.value.id) else None;
    Tickets.Query("tickets", [Tickets.Eq("user_id", userId)], "created_at", false)
  }

  /** The query admits exactly the rows submitted by the stored user, and
      none when no user is stored. */
  lemma FetchQueryAdmits(user: Option<AuthStore.User>, t: Tickets.Ticket)
    ensures Tickets.Admits(FetchQuery(user), t) <==> user.Some? && t.userId == user.value.id
  {
  }

  /** A ticket inserted for a stored user is one the user's fetch returns,
      once the backend fills in the row. */
  lemma CreatedTicketsAreFetched(form: TicketForm, user: AuthStore.User, row: Tickets.Ticket)
    requires Some(row.userId) == Record(form, Some(user)).userId
    ensures Tickets.Admits(FetchQuery(Some(user)), row)
  {
  }

  /** `priority.charAt(0).toUpperCase() + priority.slice(1)`. */
  function PriorityLabel(priority: string): (r: string)
    ensures |r| == |priority|
    ensures |priority| > 0 ==> !Text.IsLower(r[0]) && r[1..] == priority[1..]
    ensures |priority| > 0 && !Text.IsLower(priority[0]) ==> r == priority
  {
    Text.Capitalize(priority)
  }

  lemma PriorityLabels()
    ensures PriorityLabel("low") == "Low"
    ensures PriorityLabel("medium") == "Medium"
    ensures PriorityLabel("high") == "High"
    ensures PriorityLabel("") == ""
  {
  }

  /** `handleSignOut`: a settled sign-out navigates to `/login`; a
      rejected one stays put. */
  function AfterSignOut(c: Completion<()>): (r: Option<Router.Navigation>)
    ensures r.Some? <==> c.Returned?
    ensures r.Some? ==> r.value.to == Router.LoginPath && !r.value.replace
  {
    match c
    case Returned(_) => Some(Router.Navigation(Router.LoginPath, false, Router.NoState))
    case Threw(_) => None
  }
}
