/** Ticket rows as both dashboards read them, the queries they send, how
    a fetch settles, and the status formatting they share. */
module Tickets {
  import opened Common
  import Text

  /** A row of the `tickets` table. */
  datatype Ticket = Ticket(
    id: string,
    title: string,
    description: string,
    priority: string,
    category: string,
    status: string,
    userId: string,
    userEmail: Option<string>,
    expectedDate: string,
    createdAt: string,
    adminComments: Option<string>)

  /** `.eq(column, value)`; `value` is `None` when the client passes
      `undefined`. */
  datatype Filter = Eq(column: string, value: Option<string>)

  /** `from(table).select('*')`, its equality filters, and its ordering. */
  datatype Query = Query(table: string, filters: seq<Filter>, orderColumn: string, ascending: bool)

  /** The string-valued columns a filter may name. */
  function Column(t: Ticket, column: string): Option<string>
  {
    match column
    case "id" => Some(t.id)
    case "title" => Some(t.title)
    case "description" => Some(t.description)
    case "priority" => Some(t.priority)
    case "category" => Some(t.category)
    case "status" => Some(t.status)
    case "user_id" => Some(t.userId)
    case "user_email" => t.userEmail
    case "expected_date" => Some(t.expectedDate)
    case "created_at" => Some(t.createdAt)
    case _ => None
  }

  /** A row passes a filter when the named column holds the given value;
      an `undefined` value passes no row. */
  predicate Passes(t: Ticket, f: Filter)
  {
    f.value.Some? && Column(t, f.column) == f.value
  }

  /** A row belongs to a query's answer when it passes every filter. */
  predicate Admits(q: Query, t: Ticket)
  {
    forall i :: 0 <= i < |q.filters| ==> Passes(t, q.filters[i])
  }

  /** What a fetch obtained: `data` (possibly null) or an error. */
  datatype FetchResponse = Fetched(data: Option<seq<Ticket>>) | FetchFailed(error: Error)

  /** A dashboard's list and its `loading` flag. */
  datatype ListView = ListView(tickets: seq<Ticket>, loading: bool)

  /** The end of `fetchTickets` on both dashboards: rows (or `[]` for
      null data) replace the list on success; the list is kept on error;
      `loading` is cleared in every outcome. */
  function FinishFetch(v: ListView, response: FetchResponse): (r: ListView)
    ensures !r.loading
    ensures response.Fetched? && response.data.Some? ==> r.tickets == response.data.value
    ensures response.Fetched? && response.data.None? ==> r.tickets == []
    ensures response.FetchFailed? ==> r.tickets == v.tickets
  {
    match response
    case Fetched(data) => ListView(if data.Some? then data.value else [], false)
    case FetchFailed(_) => v.(loading := false)
  }

  /** The list and flag both dashboards start with (`useState([])`,
      `useState(true)`). */
  const InitialList: ListView := ListView([], true)

  /** The list after the given fetches settled, in order. */
  function FetchRun(v: ListView, responses: seq<FetchResponse>): ListView
    decreases |responses|
  {
    if |responses| == 0 then v
    else FinishFetch(FetchRun(v, responses[..|responses| - 1]), responses[|responses| - 1])
  }

  /** The rows of the last successful fetch (`data || []`), if any. */
  function LastFetched(responses: seq<FetchResponse>): Option<seq<Ticket>>
    decreases |responses|
  {
    if |responses| == 0 then None
    else match responses[|responses| - 1]
      case Fetched(data) => Some(if data.Some? then data.value else [])
      case FetchFailed(_) => LastFetched(responses[..|responses| - 1])
  }

  /** After any fetches the list holds the last successful fetch's rows,
      or the earlier list when none succeeded; after at least one fetch
      `loading` is false, whatever the outcomes. */
  lemma {:induction false} FetchRunShowsLastSuccess(v: ListView, responses: seq<FetchResponse>)
    ensures FetchRun(v, responses).tickets ==
      (if LastFetched(responses).Some? then LastFetched(responses).value else v.tickets)
    ensures |responses| > 0 ==> !FetchRun(v, responses).loading
    decreases |responses|
  {
    if |responses| > 0 {
      FetchRunShowsLastSuccess(v, responses[..|responses| - 1]);
    }
  }

  /** From a dashboard's initial list, any non-empty run of fetches ends
      not loading, showing the last successful fetch's rows or nothing. */
  lemma DashboardListAfterFetches(responses: seq<FetchResponse>)
    requires |responses| > 0
    ensures !FetchRun(InitialList, responses).loading
    ensures FetchRun(InitialList, responses).tickets ==
      (if LastFetched(responses).Some? then LastFetched(responses).value else [])
  {
    FetchRunShowsLastSuccess(InitialList, responses);
  }

  /** The colour class of a status badge. */
  datatype Badge = Green | Yellow | Blue

  function StatusBadge(status: string): (b: Badge)
    ensures b == Green <==> status == "open"
    ensures b == Yellow <==> status == "in_progress"
    ensures b == Blue <==> status != "open" && status != "in_progress"
  {
    if status == "open" then Green
    else if status == "in_progress" then Yellow
    else Blue
  }

  /** `status.replace('_', ' ')`: the label has the status's length and
      differs from it only where an underscore became a space. */
  function StatusLabel(status: string): (r: string)
    ensures |r| == |status|
    ensures forall i :: 0 <= i < |status| && r[i] != status[i] ==> status[i] == '_' && r[i] == ' '
  {
    Text.ReplaceFirst(status, '_', ' ')
  }

  /** Only the first underscore becomes a space. */
  lemma StatusLabels()
    ensures StatusLabel("in_progress") == "in progress"
    ensures StatusLabel("open") == "open"
    ensures StatusLabel("a_b_c") == "a b_c"
  {
    assert "in_progress"[..2] == "in";
    assert "a_b_c"[..1] == "a";
    assert "a_b_c"[..3] == "a_b";
  }

  /** A label differs from the status in at most one place, and a status
      without underscores is its own label. */
  lemma StatusLabelChangesOneCharacter(status: string)
    ensures |StatusLabel(status)| == |status|
    ensures '_' !in status ==> StatusLabel(status) == status
    ensures forall i, j :: 0 <= i < j < |status| && StatusLabel(status)[i] != status[i] ==>
      StatusLabel(status)[j] == status[j]
  {
  }
}
