/** The ticket detail page (`src/pages/TicketDetail.tsx`): which ticket is
    shown, the assignees offered, and the response, status, rating and
    escalation handlers over the ticket store. */
module TicketDetail {
  import opened Base
  import opened Seqs
  import opened Strings
  import opened Types
  import opened Tickets

  /** `tickets.find(t => t.id === id)`. */
  function FindTicket(ts: seq<Ticket>, id: string): (r: Option<Ticket>)
    ensures r.None? <==> forall i :: 0 <= i < |ts| ==> ts[i].id != id
    ensures r.Some? ==> r.value in ts && r.value.id == id
  {
    if ts == [] then None
    else if ts[0].id == id then Some(ts[0])
    else
      var r := FindTicket(ts[1..], id);
      assert forall i :: 1 <= i < |ts| ==> ts[i] == ts[1..][i - 1];
      r
  }

  datatype DetailView = NoProductSelected | TicketNotFound | TicketShown(ticket: Ticket)

  /** A ticket is shown only when it exists among the user's tickets and
      belongs to the selected product. */
  function View(ts: seq<Ticket>, id: string, selected: Option<Product>): (v: DetailView)
    ensures v.NoProductSelected? <==> selected.None?
    ensures v.TicketShown? <==>
              selected.Some? && FindTicket(ts, id).Some? && FindTicket(ts, id).value.productId == selected.value.id
    ensures v.TicketShown? ==> v.ticket in ts && v.ticket.id == id
  {
    if selected.None? then NoProductSelected
    else match FindTicket(ts, id)
      case None => TicketNotFound
      case Some(t) => if t.productId != selected.value.id then TicketNotFound else TicketShown(t)
  }

  /** `u.role === 'agent' || u.role === 'admin'` of the ticket's team. */
  predicate IsAssignee(teamId: string, u: User) {
    (u.role == Agent || u.role == Admin) && u.teamId == teamId
  }

  function AssigneeOf(teamId: string): User -> bool {
    (u: User) => IsAssignee(teamId, u)
  }

  /** `getAvailableAgents`. */
  function AvailableAgents(users: seq<User>, teamId: string): (r: seq<User>)
    ensures forall u :: u in r <==> u in users && (u.role == Agent || u.role == Admin) && u.teamId == teamId
  {
    Filter(users, AssigneeOf(teamId))
  }

  /** `{ status: pendingStatus }`. */
  function StatusUpdate(s: Status): (u: TicketUpdate)
    ensures forall t: Ticket, now: int {:trigger Merge(t, u, now)} ::
              Merge(t, u, now) == t.(status := s, updatedAt := now)
  {
    NoChange.(status := Set(s))
  }

  /** `{ satisfaction: rating }`. */
  function SatisfactionUpdate(rating: int): (u: TicketUpdate)
    ensures forall t: Ticket, now: int {:trigger Merge(t, u, now)} ::
              Merge(t, u, now) == t.(satisfaction := Some(rating), updatedAt := now)
  {
    NoChange.(satisfaction := Set(Some(rating)))
  }

  lemma StatusUpdateEffect(t: Ticket, s: Status, now: int)
    ensures Merge(t, StatusUpdate(s), now) == t.(status := s, updatedAt := now)
  {
  }

  lemma SatisfactionUpdateEffect(t: Ticket, rating: int, now: int)
    ensures Merge(t, SatisfactionUpdate(rating), now) == t.(satisfaction := Some(rating), updatedAt := now)
  {
  }

  /** The rating prompt follows a save exactly when an agent resolves the ticket. */
  predicate PromptsRating(s: Status, role: Role)
    ensures PromptsRating(s, role) ==> StatusUpdate(s).status == Set(Resolved)
    ensures PromptsRating(s, role) <==> s == Resolved && role == Agent
  {
    s == Resolved && role == Agent
  }

  /** The page's state over the ticket store; `user` is the signed-in user
      and `ticketId` the route parameter. */
  class TicketDetailState {
    const user: User
    const selected: Option<Product>
    const users: seq<User>
    const ticketId: string
    const store: TicketStore
    var newResponse: string
    var isInternal: bool
    var showRating: bool
    var rating: int
    var showEscalateModal: bool
    var escalationReason: string
    var pendingStatus: Option<Status>

    constructor(user: User, selected: Option<Product>, users: seq<User>, ticketId: string, store: TicketStore)
      ensures this.user == user && this.selected == selected && this.users == users
      ensures this.ticketId == ticketId && this.store == store
      ensures newResponse == "" && !isInternal && !showRating && rating == 0
      ensures !showEscalateModal && escalationReason == "" && pendingStatus == None
    {
      this.user := user;
      this.selected := selected;
      this.users := users;
      this.ticketId := ticketId;
      this.store := store;
      newResponse := "";
      isInternal := false;
      showRating := false;
      rating := 0;
      showEscalateModal := false;
      escalationReason := "";
      pendingStatus := None;
    }

    /** The page for the signed-in user's tickets, the id in the route
        and the selected product. */
    function CurrentView(): (v: DetailView)
      reads this, store
      ensures v.NoProductSelected? <==> selected.None?
      ensures v.TicketShown? ==>
                v.ticket in store.tickets && VisibleTo(store.user, v.ticket)
                && v.ticket.id == ticketId && v.ticket.productId == selected.value.id
    {
      View(store.Visible(), ticketId, selected)
    }

    /** A blank response is ignored; otherwise it is stored trimmed with the
        chosen visibility, and the form empties. */
    method HandleSubmit(now: int)
      modifies this`newResponse, this`isInternal, store
      ensures IsBlank(old(newResponse)) ==>
                store.responses == old(store.responses)
                && newResponse == old(newResponse) && isInternal == old(isInternal)
      ensures !IsBlank(old(newResponse)) ==>
                store.responses == old(store.responses)
                                   + [NewResponse(ResponseDraft(ticketId, user.id, Trim(old(newResponse)),
                                                                old(isInternal)), now)]
                && newResponse == "" && !isInternal
      ensures store.tickets == old(store.tickets) && store.user == old(store.user)
      ensures pendingStatus == old(pendingStatus) && showRating == old(showRating)
    {
      if Trim(newResponse) == [] {
        return;
      }
      var _ := store.AddResponse(ResponseDraft(ticketId, user.id, Trim(newResponse), isInternal), now);
      newResponse := "";
      isInternal := false;
    }

    method HandleStatusChange(s: Status)
      modifies this`pendingStatus
      ensures pendingStatus == Some(s) && showRating == old(showRating)
    {
      pendingStatus := Some(s);
    }

    /** Without a pending status nothing happens; otherwise the status is
        written, the pending status cleared, and the rating prompt opened
        when an agent resolved the ticket. */
    method HandleStatusSave(now: int)
      modifies this`pendingStatus, this`showRating, store
      ensures old(pendingStatus).None? ==>
                store.tickets == old(store.tickets) && showRating == old(showRating)
                && pendingStatus == None
      ensures old(pendingStatus).Some? ==>
                store.tickets == UpdatedTickets(old(store.tickets), ticketId,
                                                StatusUpdate(old(pendingStatus).value), now)
                && pendingStatus == None
                && showRating == (old(showRating) || PromptsRating(old(pendingStatus).value, user.role))
      ensures store.responses == old(store.responses) && store.user == old(store.user)
      ensures rating == old(rating) && newResponse == old(newResponse)
    {
      if pendingStatus.None? {
        return;
      }
      var s := pendingStatus.value;
      store.UpdateTicket(ticketId, StatusUpdate(s), now);
      pendingStatus := None;
      if PromptsRating(s, user.role) {
        showRating := true;
      }
    }

    /** A positive rating is written as the satisfaction; the prompt closes
        either way. */
    method HandleRatingSubmit(now: int)
      modifies this`showRating, store
      ensures old(rating) > 0 ==>
                store.tickets == UpdatedTickets(old(store.tickets), ticketId, SatisfactionUpdate(old(rating)), now)
      ensures old(rating) <= 0 ==> store.tickets == old(store.tickets)
      ensures !showRating && rating == old(rating) && pendingStatus == old(pendingStatus)
      ensures store.responses == old(store.responses) && store.user == old(store.user)
    {
      if rating > 0 {
        store.UpdateTicket(ticketId, SatisfactionUpdate(rating), now);
      }
      showRating := false;
    }

    /** A blank reason is ignored; otherwise the ticket is escalated with the
        trimmed reason and the dialog closes and empties. */
    method HandleEscalate(now: int)
      modifies this`showEscalateModal, this`escalationReason, store
      ensures IsBlank(old(escalationReason)) ==>
                store.tickets == old(store.tickets) && escalationReason == old(escalationReason)
                && showEscalateModal == old(showEscalateModal)
      ensures !IsBlank(old(escalationReason)) ==>
                store.tickets == UpdatedTickets(old(store.tickets), ticketId,
                                                EscalateUpdate(Trim(old(escalationReason))), now)
                && !showEscalateModal && escalationReason == ""
      ensures store.responses == old(store.responses) && store.user == old(store.user)
      ensures pendingStatus == old(pendingStatus)
    {
      if Trim(escalationReason) == [] {
        return;
      }
      store.EscalateTicket(ticketId, Trim(escalationReason), now);
      showEscalateModal := false;
      escalationReason := "";
    }

    /** The assignment control's `onAssign`. */
    method HandleAssign(userId: string, now: int)
      modifies store
      ensures store.tickets == UpdatedTickets(old(store.tickets), ticketId, AssignUpdate(userId), now)
      ensures store.responses == old(store.responses) && store.user == old(store.user)
    {
      store.AssignTicket(ticketId, userId, now);
    }
  }
}
