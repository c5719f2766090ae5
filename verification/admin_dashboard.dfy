/** The administrator dashboard: the status-filtered fetch, the
    case-insensitive search over the fetched list, and status updates. */
module AdminDashboard {
  import opened Common
  import Text
  import Tickets

  /** The status filter's "no constraint" value. */
  const AllStatuses: string := "all"

  /** `fetchTickets`' query: every ticket, newest first, restricted to one
      status unless the filter is `all`. */
  function FetchQuery(filterStatus: string): (q: Tickets.Query)
    ensures q.table == "tickets" && q.orderColumn == "created_at" && !q.ascending
    ensures filterStatus == AllStatuses ==> q.filters == []
    ensures filterStatus != AllStatuses ==> q.filters == [Tickets.Eq("status", Some(filterStatus))]
  {
    var q := Tickets.Query("tickets", [], "created_at", false);
    if filterStatus != AllStatuses then q.(filters := q.filters + [Tickets.Eq("status", Some(filterStatus))])
    else q
  }

  /** The query admits a row exactly when the filter is `all` or the row
      has the chosen status. */
  lemma FetchQueryAdmits(filterStatus: string, t: Tickets.Ticket)
    ensures Tickets.Admits(FetchQuery(filterStatus), t) <==>
      filterStatus == AllStatuses || t.status == filterStatus
  {
    if filterStatus != AllStatuses {
      assert FetchQuery(filterStatus).filters[0] == Tickets.Eq("status", Some(filterStatus));
    }
  }

  /** The search callback on one ticket. `Some(keep)` when it returns;
      `None` when it throws: the `||` chain only reaches
      `ticket.user_email.toLowerCase()` when neither the title nor the
      description matched, and that call throws on a null e-mail. */
  function MatchOutcome(t: Tickets.Ticket, searchTerm: string): (r: Option<bool>)
    ensures r.None? ==> t.userEmail.None?
    ensures searchTerm == "" ==> r == Some(true)
  {
    var needle := Text.Lower(searchTerm);
    if Text.Includes(Text.Lower(t.title), needle) then Some(true)
    else if Text.Includes(Text.Lower(t.description), needle) then Some(true)
    else if t.userEmail.None? then None
    else Some(Text.Includes(Text.Lower(t.userEmail.value), needle))
  }

  /** The callback returns true for the ticket. */
  predicate Matches(t: Tickets.Ticket, searchTerm: string)
  {
    MatchOutcome(t, searchTerm) == Some(true)
  }

  /** `a` is `b` with some elements removed, order kept. */
  ghost predicate IsSubsequence<T>(a: seq<T>, b: seq<T>)
    decreases |b|
  {
    if |a| == 0 then true
    else if |b| == 0 then false
    else (a[0] == b[0] && IsSubsequence(a[1..], b[1..])) || IsSubsequence(a, b[1..])
  }

  /** `filteredTickets`: `None` when the callback throws on some ticket,
      otherwise the matching tickets in list order, each kept as often as
      it occurs. */
  function FilterTickets(tickets: seq<Tickets.Ticket>, searchTerm: string): (r: Option<seq<Tickets.Ticket>>)
    ensures r.None? <==> exists i :: 0 <= i < |tickets| && MatchOutcome(tickets[i], searchTerm).None?
    ensures r.Some? ==> |r.value| <= |tickets| && IsSubsequence(r.value, tickets)
    ensures r.Some? ==> forall t :: t in r.value ==> t in tickets && Matches(t, searchTerm)
    ensures r.Some? ==> forall t :: t in tickets && Matches(t, searchTerm) ==> t in r.value
    ensures r.Some? ==> forall t ::
      multiset(r.value)[t] == (if Matches(t, searchTerm) then multiset(tickets)[t] else 0)
    decreases |tickets|
  {
    if |tickets| == 0 then Some([])
    else
      assert tickets == [tickets[0]] + tickets[1..];
      match MatchOutcome(tickets[0], searchTerm)
      case None => None
      case Some(keep) =>
        var rest := FilterTickets(tickets[1..], searchTerm);
        if rest.None? then None
        else if keep then Some([tickets[0]] + rest.value)
        else Some(rest.value)
  }

  /** An empty search keeps every ticket and never throws. */
  lemma {:induction false} EmptySearchKeepsAll(tickets: seq<Tickets.Ticket>)
    ensures FilterTickets(tickets, "") == Some(tickets)
    decreases |tickets|
  {
    if |tickets| > 0 {
      EmptySearchKeepsAll(tickets[1..]);
      assert tickets == [tickets[0]] + tickets[1..];
    }
  }

  /** Searching the result again with the same term changes nothing. */
  lemma {:induction false} SearchIdempotent(tickets: seq<Tickets.Ticket>, searchTerm: string)
    requires FilterTickets(tickets, searchTerm).Some?
    ensures FilterTickets(FilterTickets(tickets, searchTerm).value, searchTerm) == FilterTickets(tickets, searchTerm)
    decreases |tickets|
  {
    if |tickets| > 0 {
      SearchIdempotent(tickets[1..], searchTerm);
      var rest := FilterTickets(tickets[1..], searchTerm).value;
      if Matches(tickets[0], searchTerm) {
        assert ([tickets[0]] + rest)[1..] == rest;
      }
    }
  }

  /** The search ignores ASCII case in the term. */
  lemma SearchIgnoresTermCase(tickets: seq<Tickets.Ticket>, searchTerm: string)
    ensures FilterTickets(tickets, Text.Lower(searchTerm)) == FilterTickets(tickets, searchTerm)
  {
    Text.LowerIdempotent(searchTerm);
    assert forall t :: MatchOutcome(t, Text.Lower(searchTerm)) == MatchOutcome(t, searchTerm);
    SameOutcomesSameFilter(tickets, Text.Lower(searchTerm), searchTerm);
  }

  lemma {:induction false} SameOutcomesSameFilter(tickets: seq<Tickets.Ticket>, a: string, b: string)
    requires forall t :: MatchOutcome(t, a) == MatchOutcome(t, b)
    ensures FilterTickets(tickets, a) == FilterTickets(tickets, b)
    decreases |tickets|
  {
    if |tickets| > 0 {
      SameOutcomesSameFilter(tickets[1..], a, b);
    }
  }

  /** `updateTicketStatus(id, status)` as its effect on the table: the
      `status` of every row with that `id` becomes `status`. */
  function SetStatus(tickets: seq<Tickets.Ticket>, id: string, status: string): (r: seq<Tickets.Ticket>)
    ensures |r| == |tickets|
    ensures forall i :: 0 <= i < |tickets| && tickets[i].id == id ==> r[i] == tickets[i].(status := status)
    ensures forall i :: 0 <= i < |tickets| && tickets[i].id != id ==> r[i] == tickets[i]
    decreases |tickets|
  {
    if |tickets| == 0 then []
    else
      var head := if tickets[0].id == id then tickets[0].(status := status) else tickets[0];
      [head] + SetStatus(tickets[1..], id, status)
  }

  /** Setting the same status twice is the same as once. */
  lemma SetStatusIdempotent(tickets: seq<Tickets.Ticket>, id: string, status: string)
    ensures SetStatus(SetStatus(tickets, id, status), id, status) == SetStatus(tickets, id, status)
  {
  }
}
