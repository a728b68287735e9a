/** The agent shell (`src/components/dashboards/TeamDashboard.tsx`): the
    agent's own tickets, the stats over them, the products its switcher
    offers, and the product links under a selected product. */
module TeamDashboard {
  import opened Base
  import opened Seqs
  import opened Types
  import opened Tickets
  import opened Stats
  import ProductContext

  const TopLinks: seq<string> := ["Dashboard"]

  const ProductLinks: seq<string> := ["Tickets", "Team", "Analytics"]

  function ProductLinksShown(selected: Option<Product>): (r: seq<string>)
    ensures selected.Some? ==> r == ProductLinks
    ensures selected.None? ==> r == []
  {
    if selected.Some? then ProductLinks else []
  }

  /** `ticket.assignedToId === user.id || (!ticket.assignedToId && ticket.teamId === user.teamId)`. */
  predicate OnBoard(user: User, t: Ticket)
    ensures t.assignedToId == Some(user.id) ==> OnBoard(user, t)
    ensures OnBoard(user, t) && t.teamId != user.teamId ==> t.assignedToId == Some(user.id)
    ensures t.assignedToId.Some? && t.assignedToId.value !in {"", user.id} ==> !OnBoard(user, t)
  {
    t.assignedToId == Some(user.id) || (IsUnassigned(t.assignedToId) && t.teamId == user.teamId)
  }

  function OnBoardOf(user: User): Ticket -> bool {
    (t: Ticket) => OnBoard(user, t)
  }

  function BoardTickets(user: User, hookTickets: seq<Ticket>): (r: seq<Ticket>)
    ensures forall t :: t in r <==> t in hookTickets && OnBoard(user, t)
  {
    Filter(hookTickets, OnBoardOf(user))
  }

  /** Over the hook's list (the team's tickets, for an agent) the board holds
      the team tickets assigned to the agent and the team's unassigned ones. */
  lemma AgentBoardIsTeamWork(user: User, ts: seq<Ticket>, t: Ticket)
    requires user.role == Agent
    ensures t in BoardTickets(user, UserTickets(Some(user), ts)) <==>
              t in ts && t.teamId == user.teamId
              && (t.assignedToId == Some(user.id) || IsUnassigned(t.assignedToId))
  {
  }

  /** Stats count only the board's tickets: every figure is the one the
      dashboard statistics give for the board. */
  function BoardStats(user: User, hookTickets: seq<Ticket>): (s: DashboardStats)
    ensures s == GetDashboardStats(BoardTickets(user, hookTickets))
    ensures s.totalTickets == |BoardTickets(user, hookTickets)| && s.totalTickets <= |hookTickets|
    ensures s.openTickets == Count(BoardTickets(user, hookTickets), IsOpen) && s.openTickets <= s.totalTickets
  {
    GetDashboardStats(BoardTickets(user, hookTickets))
  }

  /** `user.productIds?.includes(product.id)`: the switcher's products. */
  function SwitcherProducts(user: User, ps: seq<Product>): (r: seq<Product>)
    ensures forall p :: p in r <==> p in ps && HasProductId(user, p.id)
  {
    Filter(ps, (p: Product) => HasProductId(user, p.id))
  }

  /** For an agent the switcher offers exactly the products the provider's
      access rule lets them select. */
  lemma {:induction false} SwitcherMatchesAccessRule(user: User, ps: seq<Product>)
    requires user.role != Admin
    ensures SwitcherProducts(user, ps) == ProductContext.AccessibleProducts(Some(user), ps)
  {
    if ps != [] {
      SwitcherMatchesAccessRule(user, ps[1..]);
    }
  }
}
