/** The dashboard page (`src/pages/Dashboard.tsx`): the redirect of
    customers without products, the tickets the page works on, its queues
    and the open/resolved split, and what each role is shown. */
module Dashboard {
  import opened Base
  import opened Seqs
  import opened Types
  import opened Tickets
  import opened Stats
  import ProductContext

  /** `user?.role === 'customer' && !user.productIds?.length`: a customer
      who holds no product id at all is sent to discovery. */
  predicate RedirectsToDiscover(user: Option<User>)
    ensures RedirectsToDiscover(user) <==>
              user.Some? && user.value.role == Customer && forall id :: !HasProductId(user.value, id)
  {
    assert user.Some? && user.value.productIds.Some? && |user.value.productIds.value| > 0 ==>
             HasProductId(user.value, user.value.productIds.value[0]);
    user.Some? && user.value.role == Customer
    && (user.value.productIds.None? || |user.value.productIds.value| == 0)
  }

  /** A redirected customer could use no product of any list: the provider's
      access rule admits none. */
  lemma RedirectedSeeNoProducts(user: Option<User>, ps: seq<Product>)
    requires RedirectsToDiscover(user)
    ensures ProductContext.AccessibleProducts(user, ps) == []
  {
    assert forall i :: 0 <= i < |ps| ==> !ProductContext.CanAccess(user, ps[i]);
    FilterNoneEmpty(ps, (p: Product) => ProductContext.CanAccess(user, p));
  }

  /** `userTickets`: the page filters the hook's list with the hook's own
      rule, so the store's visible tickets come through unchanged. */
  lemma DashboardTicketsAreVisible(user: Option<User>, ts: seq<Ticket>)
    ensures UserTickets(user, UserTickets(user, ts)) == UserTickets(user, ts)
  {
    FilterIdempotent(ts, (t: Ticket) => VisibleTo(user, t));
  }

  predicate InAdminQueue(t: Ticket) {
    t.queueType == AdminQueue
  }

  predicate InAgentQueue(t: Ticket) {
    t.queueType == AgentQueue
  }

  function AdminQueueOf(ts: seq<Ticket>): (r: seq<Ticket>)
    ensures forall t :: t in r <==> t in ts && t.queueType == AdminQueue
  {
    Filter(ts, InAdminQueue)
  }

  function AgentQueueOf(ts: seq<Ticket>): (r: seq<Ticket>)
    ensures forall t :: t in r <==> t in ts && t.queueType == AgentQueue
  {
    Filter(ts, InAgentQueue)
  }

  /** Every ticket is in exactly one of the two queues. */
  lemma QueuesPartition(ts: seq<Ticket>)
    ensures multiset(AdminQueueOf(ts)) + multiset(AgentQueueOf(ts)) == multiset(ts)
    ensures |AdminQueueOf(ts)| + |AgentQueueOf(ts)| == |ts|
  {
    FilterPartition(ts, InAdminQueue, InAgentQueue);
  }

  function OpenTicketsOf(ts: seq<Ticket>): (r: seq<Ticket>)
    ensures forall t :: t in r <==> t in ts && t.status != Resolved
  {
    Filter(ts, IsOpen)
  }

  function ResolvedTicketsOf(ts: seq<Ticket>): (r: seq<Ticket>)
    ensures forall t :: t in r <==> t in ts && t.status == Resolved
  {
    Filter(ts, IsResolved)
  }

  /** The open and resolved lists split the user's tickets. */
  lemma OpenResolvedPartition(ts: seq<Ticket>)
    ensures multiset(OpenTicketsOf(ts)) + multiset(ResolvedTicketsOf(ts)) == multiset(ts)
    ensures |OpenTicketsOf(ts)| == GetDashboardStats(ts).openTickets
  {
    FilterPartition(ts, IsOpen, IsResolved);
  }

  /** `user?.role !== 'agent'`: customers, admins and a missing user get
      the New Ticket link, agents never. */
  predicate ShowsNewTicketLink(user: Option<User>)
    ensures user.Some? && user.value.role == Agent ==> !ShowsNewTicketLink(user)
    ensures user.None? || user.value.role in {Customer, Admin} ==> ShowsNewTicketLink(user)
  {
    !(user.Some? && user.value.role == Agent)
  }

  /** The body of the page for each role. */
  datatype DashboardBody =
    | CustomerBoard(open: seq<Ticket>, resolved: seq<Ticket>)
    | AdminBoard(stats: DashboardStats, adminQueue: seq<Ticket>, agentQueue: seq<Ticket>)
    | StaffBoard(stats: DashboardStats, recent: seq<Ticket>)

  function Body(user: Option<User>, hookTickets: seq<Ticket>): (b: DashboardBody)
    ensures user.Some? && user.value.role == Customer <==> b.CustomerBoard?
    ensures user.Some? && user.value.role == Admin <==> b.AdminBoard?
    ensures b.CustomerBoard? ==>
              b.open == OpenTicketsOf(UserTickets(user, hookTickets))
              && b.resolved == ResolvedTicketsOf(UserTickets(user, hookTickets))
    ensures b.AdminBoard? ==>
              b.stats == GetDashboardStats(UserTickets(user, hookTickets))
              && b.adminQueue == AdminQueueOf(UserTickets(user, hookTickets))
              && b.agentQueue == AgentQueueOf(UserTickets(user, hookTickets))
    ensures b.StaffBoard? ==>
              b.stats == GetDashboardStats(UserTickets(user, hookTickets))
              && b.recent == UserTickets(user, hookTickets)
  {
    var mine := UserTickets(user, hookTickets);
    if user.Some? && user.value.role == Customer then
      CustomerBoard(OpenTicketsOf(mine), ResolvedTicketsOf(mine))
    else if user.Some? && user.value.role == Admin then
      AdminBoard(GetDashboardStats(mine), AdminQueueOf(mine), AgentQueueOf(mine))
    else
      StaffBoard(GetDashboardStats(mine), mine)
  }

  /** A customer's board only holds tickets the customer opened. */
  lemma CustomerBoardIsOwnTickets(user: User, ts: seq<Ticket>, t: Ticket)
    requires user.role == Customer
    requires t in Body(Some(user), ts).open || t in Body(Some(user), ts).resolved
    ensures t.customerId == user.id && t in ts
  {
  }
}
