/** The ticket store (`src/hooks/useTickets.ts`): the stored ticket and
    response lists, their mutators, and the two filters the hook exposes.
    Clock readings and the current user are passed in. */
module Tickets {
  import opened Base
  import opened Seqs
  import opened Strings
  import opened Types

  // ----------------------------------------------------------- new tickets

  /** What a caller supplies to `createTicket`: every ticket field except id,
      time stamps, status and queue. */
  datatype TicketDraft = TicketDraft(subject: string, description: string,
                                     categoryId: string, productId: string,
                                     assignedToId: Option<string>, customerId: string,
                                     teamId: string, escalationReason: Option<string>,
                                     templateId: Option<string>,
                                     customFields: Option<map<string, FormValue>>,
                                     satisfaction: Option<int>, firstResponseAt: Option<int>)

  /** The supplied part of a ticket. */
  function DraftOf(t: Ticket): TicketDraft {
    TicketDraft(t.subject, t.description, t.categoryId, t.productId, t.assignedToId,
                t.customerId, t.teamId, t.escalationReason, t.templateId,
                t.customFields, t.satisfaction, t.firstResponseAt)
  }

  /** `ticket_${Date.now()}`. */
  function TicketId(now: int): string {
    "ticket_" + IntToString(now)
  }

  /** The record `createTicket` builds: the draft, a fresh id, status 'new',
      the agent queue, and both time stamps set to `now`. */
  function NewTicket(d: TicketDraft, now: int): (t: Ticket)
    ensures DraftOf(t) == d
    ensures t.id == TicketId(now) && t.status == New && t.queueType == AgentQueue
    ensures t.createdAt == now && t.updatedAt == now
  {
    Ticket(TicketId(now), d.subject, d.description, d.categoryId, New, d.productId,
           d.assignedToId, d.customerId, d.teamId, AgentQueue, d.escalationReason,
           now, now, d.templateId, d.customFields, d.satisfaction, d.firstResponseAt)
  }

  // --------------------------------------------------------------- updates

  /** A `Partial<Ticket>`: each field either absent or given a new value.
      `updatedAt` is always overwritten by `updateTicket`, so it has no patch. */
  datatype TicketUpdate = TicketUpdate(
    id: Patch<string>, subject: Patch<string>, description: Patch<string>,
    categoryId: Patch<string>, status: Patch<Status>, productId: Patch<string>,
    assignedToId: Patch<Option<string>>, customerId: Patch<string>,
    teamId: Patch<string>, queueType: Patch<QueueType>,
    escalationReason: Patch<Option<string>>, createdAt: Patch<int>,
    templateId: Patch<Option<string>>,
    customFields: Patch<Option<map<string, FormValue>>>,
    satisfaction: Patch<Option<int>>, firstResponseAt: Patch<Option<int>>)

  /** The update with no field present. */
  const NoChange: TicketUpdate :=
    TicketUpdate(Keep, Keep, Keep, Keep, Keep, Keep, Keep, Keep, Keep, Keep, Keep,
                 Keep, Keep, Keep, Keep, Keep)

  /** `{...ticket, ...updates, updatedAt: now}`: the update time is always
      `now`; every other property the update carries takes the new value,
      every other keeps the ticket's. */
  function Merge(t: Ticket, u: TicketUpdate, now: int): (r: Ticket)
    ensures r.updatedAt == now
    ensures r.id == (if u.id.Set? then u.id.value else t.id)
    ensures r.subject == (if u.subject.Set? then u.subject.value else t.subject)
    ensures r.description == (if u.description.Set? then u.description.value else t.description)
    ensures r.categoryId == (if u.categoryId.Set? then u.categoryId.value else t.categoryId)
    ensures r.status == (if u.status.Set? then u.status.value else t.status)
    ensures r.productId == (if u.productId.Set? then u.productId.value else t.productId)
    ensures r.assignedToId == (if u.assignedToId.Set? then u.assignedToId.value else t.assignedToId)
    ensures r.customerId == (if u.customerId.Set? then u.customerId.value else t.customerId)
    ensures r.teamId == (if u.teamId.Set? then u.teamId.value else t.teamId)
    ensures r.queueType == (if u.queueType.Set? then u.queueType.value else t.queueType)
    ensures r.escalationReason == (if u.escalationReason.Set? then u.escalationReason.value else t.escalationReason)
    ensures r.createdAt == (if u.createdAt.Set? then u.createdAt.value else t.createdAt)
    ensures r.templateId == (if u.templateId.Set? then u.templateId.value else t.templateId)
    ensures r.customFields == (if u.customFields.Set? then u.customFields.value else t.customFields)
    ensures r.satisfaction == (if u.satisfaction.Set? then u.satisfaction.value else t.satisfaction)
    ensures r.firstResponseAt == (if u.firstResponseAt.Set? then u.firstResponseAt.value else t.firstResponseAt)
  {
    Ticket(u.id.Apply(t.id), u.subject.Apply(t.subject), u.description.Apply(t.description),
           u.categoryId.Apply(t.categoryId), u.status.Apply(t.status),
           u.productId.Apply(t.productId), u.assignedToId.Apply(t.assignedToId),
           u.customerId.Apply(t.customerId), u.teamId.Apply(t.teamId),
           u.queueType.Apply(t.queueType), u.escalationReason.Apply(t.escalationReason),
           u.createdAt.Apply(t.createdAt), now, u.templateId.Apply(t.templateId),
           u.customFields.Apply(t.customFields), u.satisfaction.Apply(t.satisfaction),
           u.firstResponseAt.Apply(t.firstResponseAt))
  }

  /** An empty update only restamps `updatedAt`. */
  lemma MergeNoChange(t: Ticket, now: int)
    ensures Merge(t, NoChange, now) == t.(updatedAt := now)
  {
  }

  /** `tickets.map(...)` of `updateTicket`: every ticket whose id matches is
      merged with the update, the others are kept as they are. */
  function UpdatedTickets(ts: seq<Ticket>, ticketId: string, u: TicketUpdate, now: int): (r: seq<Ticket>)
    ensures |r| == |ts|
    ensures forall i :: 0 <= i < |ts| ==>
              r[i] == (if ts[i].id == ticketId then Merge(ts[i], u, now) else ts[i])
  {
    if ts == [] then []
    else [if ts[0].id == ticketId then Merge(ts[0], u, now) else ts[0]]
         + UpdatedTickets(ts[1..], ticketId, u, now)
  }

  /** Updating an id no ticket carries leaves the list as it is. */
  lemma {:induction false} UpdateMissingId(ts: seq<Ticket>, ticketId: string, u: TicketUpdate, now: int)
    requires forall i :: 0 <= i < |ts| ==> ts[i].id != ticketId
    ensures UpdatedTickets(ts, ticketId, u, now) == ts
  {
    if ts != [] {
      UpdateMissingId(ts[1..], ticketId, u, now);
    }
  }

  /** An update that does not touch `id` keeps the sequence of ids. */
  lemma UpdateKeepsIds(ts: seq<Ticket>, ticketId: string, u: TicketUpdate, now: int, i: int)
    requires u.id.Keep? && 0 <= i < |ts|
    ensures UpdatedTickets(ts, ticketId, u, now)[i].id == ts[i].id
  {
  }

  /** `assignTicket`: the assignee and status 'in_progress'. */
  function AssignUpdate(userId: string): (u: TicketUpdate)
    ensures forall t: Ticket, now: int {:trigger Merge(t, u, now)} ::
              Merge(t, u, now) == t.(assignedToId := Some(userId), status := InProgress, updatedAt := now)
  {
    NoChange.(assignedToId := Set(Some(userId)), status := Set(InProgress))
  }

  /** `escalateTicket`: the admin queue, the reason, and no assignee. */
  function EscalateUpdate(reason: string): (u: TicketUpdate)
    ensures forall t: Ticket, now: int {:trigger Merge(t, u, now)} ::
              Merge(t, u, now) == t.(queueType := AdminQueue, escalationReason := Some(reason),
                                     assignedToId := None, updatedAt := now)
  {
    NoChange.(queueType := Set(AdminQueue), escalationReason := Set(Some(reason)),
              assignedToId := Set(None))
  }

  /** `closeTicket`: status 'resolved'. */
  function CloseUpdate(): (u: TicketUpdate)
    ensures forall t: Ticket, now: int {:trigger Merge(t, u, now)} ::
              Merge(t, u, now) == t.(status := Resolved, updatedAt := now)
  {
    NoChange.(status := Set(Resolved))
  }

  /** Assigning makes the ticket in progress with that assignee, whatever its
      status was, and changes nothing else but the time stamp. */
  lemma AssignEffect(t: Ticket, userId: string, now: int)
    ensures Merge(t, AssignUpdate(userId), now)
         == t.(assignedToId := Some(userId), status := InProgress, updatedAt := now)
  {
  }

  /** Escalation moves the ticket to the admin queue, records the reason and
      drops the assignee; the status, resolved or not, stays. */
  lemma EscalateEffect(t: Ticket, reason: string, now: int)
    ensures Merge(t, EscalateUpdate(reason), now)
         == t.(queueType := AdminQueue, escalationReason := Some(reason),
               assignedToId := None, updatedAt := now)
    ensures Merge(t, EscalateUpdate(reason), now).status == t.status
  {
  }

  lemma CloseEffect(t: Ticket, now: int)
    ensures Merge(t, CloseUpdate(), now) == t.(status := Resolved, updatedAt := now)
  {
  }

  // ------------------------------------------------------------- responses

  /** What a caller supplies to `addResponse`. */
  datatype ResponseDraft = ResponseDraft(ticketId: string, userId: string,
                                         content: string, isInternal: bool)

  function NewResponse(d: ResponseDraft, now: int): (r: TicketResponse)
    ensures r.id == "response_" + IntToString(now) && r.createdAt == now
    ensures ResponseDraft(r.ticketId, r.userId, r.content, r.isInternal) == d
  {
    TicketResponse("response_" + IntToString(now), d.ticketId, d.userId, d.content,
                   d.isInternal, now)
  }

  /** `getTicketResponses`: the responses of one ticket in stored order,
      internal notes included. */
  function ResponsesFor(rs: seq<TicketResponse>, ticketId: string): (r: seq<TicketResponse>)
    ensures forall x :: x in r <==> x in rs && x.ticketId == ticketId
  {
    Filter(rs, (x: TicketResponse) => x.ticketId == ticketId)
  }

  /** A response added at the end shows up at the end of its ticket's list
      and nowhere else. */
  lemma ResponsesForAppend(rs: seq<TicketResponse>, n: TicketResponse, ticketId: string)
    ensures ResponsesFor(rs + [n], ticketId)
         == ResponsesFor(rs, ticketId) + (if n.ticketId == ticketId then [n] else [])
  {
    FilterConcat(rs, [n], (x: TicketResponse) => x.ticketId == ticketId);
  }

  // ------------------------------------------------------------ visibility

  /** The rule of `getUserTickets`: a customer sees their own tickets, anyone
      else the tickets of their team; with no user nothing matches. */
  predicate VisibleTo(user: Option<User>, t: Ticket)
    ensures user.None? ==> !VisibleTo(user, t)
    ensures user.Some? && user.value.role == Customer ==> (VisibleTo(user, t) <==> t.customerId == user.value.id)
    ensures user.Some? && user.value.role != Customer ==> (VisibleTo(user, t) <==> t.teamId == user.value.teamId)
  {
    user.Some? &&
    if user.value.role == Customer then t.customerId == user.value.id
    else user.value.teamId == t.teamId
  }

  function UserTickets(user: Option<User>, ts: seq<Ticket>): (r: seq<Ticket>)
    ensures forall t :: t in r <==> t in ts && VisibleTo(user, t)
    ensures forall i :: 0 <= i < |r| ==> VisibleTo(user, r[i])
  {
    Filter(ts, (t: Ticket) => VisibleTo(user, t))
  }

  /** The exposed list follows the stored order: visible tickets of a longer
      list extend those of its prefix. */
  lemma UserTicketsAppend(user: Option<User>, ts: seq<Ticket>, t: Ticket)
    ensures UserTickets(user, ts + [t])
         == UserTickets(user, ts) + (if VisibleTo(user, t) then [t] else [])
  {
    FilterConcat(ts, [t], (x: Ticket) => VisibleTo(user, x));
  }

  // ----------------------------------------------------------------- store

  /** The state behind `useTickets`: the stored lists and the signed-in user. */
  class TicketStore {
    var tickets: seq<Ticket>
    var responses: seq<TicketResponse>
    var user: Option<User>

    constructor(user: Option<User>, tickets: seq<Ticket>, responses: seq<TicketResponse>)
      ensures this.user == user && this.tickets == tickets && this.responses == responses
    {
      this.user := user;
      this.tickets := tickets;
      this.responses := responses;
    }

    /** The `tickets` the hook returns. */
    function Visible(): (r: seq<Ticket>)
      reads this
      ensures forall t :: t in r <==> t in tickets && VisibleTo(user, t)
    {
      UserTickets(user, tickets)
    }

    method CreateTicket(d: TicketDraft, now: int) returns (t: Ticket)
      modifies this
      ensures t == NewTicket(d, now)
      ensures tickets == old(tickets) + [t]
      ensures responses == old(responses) && user == old(user)
    {
      t := NewTicket(d, now);
      tickets := tickets + [t];
    }

    method UpdateTicket(ticketId: string, u: TicketUpdate, now: int)
      modifies this
      ensures tickets == UpdatedTickets(old(tickets), ticketId, u, now)
      ensures responses == old(responses) && user == old(user)
    {
      tickets := UpdatedTickets(tickets, ticketId, u, now);
    }

    method AddResponse(d: ResponseDraft, now: int) returns (r: TicketResponse)
      modifies this
      ensures r == NewResponse(d, now)
      ensures responses == old(responses) + [r]
      ensures tickets == old(tickets) && user == old(user)
    {
      r := NewResponse(d, now);
      responses := responses + [r];
    }

    method AssignTicket(ticketId: string, userId: string, now: int)
      modifies this
      ensures tickets == UpdatedTickets(old(tickets), ticketId, AssignUpdate(userId), now)
      ensures responses == old(responses) && user == old(user)
    {
      UpdateTicket(ticketId, AssignUpdate(userId), now);
    }

    method EscalateTicket(ticketId: string, reason: string, now: int)
      modifies this
      ensures tickets == UpdatedTickets(old(tickets), ticketId, EscalateUpdate(reason), now)
      ensures responses == old(responses) && user == old(user)
    {
      UpdateTicket(ticketId, EscalateUpdate(reason), now);
    }

    method CloseTicket(ticketId: string, now: int)
      modifies this
      ensures tickets == UpdatedTickets(old(tickets), ticketId, CloseUpdate(), now)
      ensures responses == old(responses) && user == old(user)
    {
      UpdateTicket(ticketId, CloseUpdate(), now);
    }

    method GetTicketResponses(ticketId: string) returns (r: seq<TicketResponse>)
      ensures r == ResponsesFor(responses, ticketId)
    {
      r := ResponsesFor(responses, ticketId);
    }
  }
}
