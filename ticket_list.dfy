/** The ticket list page (`src/pages/TicketList.tsx`): the four conditions a
    ticket must meet to be listed, the status labels, and the agent column. */
module TicketList {
  import opened Base
  import opened Seqs
  import opened Strings
  import opened Types

  /** `getStatusDisplay`: the label of a known status, any other text as it is. */
  function StatusDisplay(status: string): (r: string)
    ensures status == "new" ==> r == "New"
    ensures status == "in_progress" ==> r == "In Progress"
    ensures status == "pending" ==> r == "Pending"
    ensures status == "resolved" ==> r == "Resolved"
    ensures status !in {"new", "in_progress", "pending", "resolved"} ==> r == status
  {
    if status == "new" then "New"
    else if status == "in_progress" then "In Progress"
    else if status == "pending" then "Pending"
    else if status == "resolved" then "Resolved"
    else status
  }

  /** Distinct statuses get distinct labels, and no label is a status name. */
  lemma StatusDisplayInjective(a: Status, b: Status)
    ensures StatusDisplay(StatusName(a)) == StatusDisplay(StatusName(b)) <==> a == b
    ensures StatusDisplay(StatusName(a)) != StatusName(a)
  {
  }

  /** The three controls above the list. */
  datatype ListFilter = ListFilter(searchTerm: string, statusFilter: string, categoryFilter: string)

  /** The initial controls: no search, open tickets, every category. */
  const InitialFilter := ListFilter("", "open", "all")

  predicate MatchesStatus(statusFilter: string, t: Ticket) {
    if statusFilter == "open" then t.status in {New, InProgress, Pending}
    else StatusName(t.status) == statusFilter
  }

  predicate MatchesCategory(categoryFilter: string, t: Ticket) {
    categoryFilter == "all" || t.categoryId == categoryFilter
  }

  predicate MatchesSearch(term: string, t: Ticket) {
    term == []
    || Contains(ToLower(t.subject), ToLower(term))
    || Contains(ToLower(t.description), ToLower(term))
  }

  /** The predicate of `filteredTickets`. */
  predicate Listed(selected: Option<Product>, f: ListFilter, t: Ticket) {
    selected.Some? && t.productId == selected.value.id
    && MatchesStatus(f.statusFilter, t) && MatchesCategory(f.categoryFilter, t)
    && MatchesSearch(f.searchTerm, t)
  }

  function ListedBy(selected: Option<Product>, f: ListFilter): Ticket -> bool {
    (t: Ticket) => Listed(selected, f, t)
  }

  /** `filteredTickets`: the tickets meeting all four conditions. */
  function FilteredTickets(ts: seq<Ticket>, selected: Option<Product>, f: ListFilter): (r: seq<Ticket>)
    ensures forall t :: t in r <==> t in ts && Listed(selected, f, t)
    ensures |r| <= |ts|
  {
    Filter(ts, ListedBy(selected, f))
  }

  /** The list keeps the stored order. */
  lemma FilteredTicketsAppend(ts: seq<Ticket>, t: Ticket, selected: Option<Product>, f: ListFilter)
    ensures FilteredTickets(ts + [t], selected, f)
         == FilteredTickets(ts, selected, f) + (if Listed(selected, f, t) then [t] else [])
  {
    FilterConcat(ts, [t], ListedBy(selected, f));
  }

  /** Without a selected product nothing is listed. */
  lemma NoProductListsNothing(ts: seq<Ticket>, f: ListFilter)
    ensures FilteredTickets(ts, None, f) == []
  {
    FilterNoneEmpty(ts, ListedBy(None, f));
  }

  /** 'open' admits exactly the unresolved statuses; a status name admits
      exactly that status. */
  lemma StatusFilterMeaning(t: Ticket, s: Status)
    ensures MatchesStatus("open", t) <==> t.status != Resolved
    ensures MatchesStatus(StatusName(s), t) <==> t.status == s
  {
  }

  /** The search ignores the case of the term, and the empty term matches
      every ticket. */
  lemma SearchIgnoresCase(term: string, t: Ticket)
    ensures MatchesSearch(ToLower(term), t) <==> MatchesSearch(term, t)
    ensures MatchesSearch("", t)
  {
    ToLowerIdempotent(term);
    if ToLower(term) == [] {
      assert |term| == 0;
    }
  }

  /** `getAssignedAgent`: an unassigned ticket reads 'Unassigned'. Any other
      ticket looks its agent up in a `users` list the page never defines, so
      the lookup throws. */
  function AssignedAgent(assignedToId: Option<string>): (r: Result<string>)
    ensures r.Ok? <==> IsUnassigned(assignedToId)
    ensures r.Ok? ==> r.value == "Unassigned"
  {
    if IsUnassigned(assignedToId) then Ok("Unassigned") else Err("users is not defined")
  }
}
