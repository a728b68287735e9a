/** The admin shell (`src/components/dashboards/AdminDashboard.tsx`): its
    queues and stats over the hook's tickets, the products its switcher
    offers, and the product links under a selected product. */
module AdminDashboard {
  import opened Base
  import opened Seqs
  import opened Types
  import opened Stats
  import Dashboard
  import ProductContext

  /** The links of `productNavigation`; all declare `show: true`. */
  const ProductLinks: seq<string> := ["Tickets", "Team", "Categories", "Templates", "Analytics"]

  /** The top links. */
  const TopLinks: seq<string> := ["Dashboard", "Products"]

  /** The product links appear only while a product is selected. */
  function ProductLinksShown(selected: Option<Product>): (r: seq<string>)
    ensures selected.Some? ==> r == ProductLinks && |r| == 5
    ensures selected.None? ==> r == []
  {
    if selected.Some? then ProductLinks else []
  }

  /** `product.teamId === user.teamId`: the switcher's products. */
  predicate InTeam(teamId: string, p: Product) {
    p.teamId == teamId
  }

  function TeamOf(teamId: string): Product -> bool {
    (p: Product) => InTeam(teamId, p)
  }

  function SwitcherProducts(user: User, ps: seq<Product>): (r: seq<Product>)
    ensures forall p :: p in r <==> p in ps && p.teamId == user.teamId
  {
    Filter(ps, TeamOf(user.teamId))
  }

  /** For an admin the switcher offers exactly the products the provider's
      access rule lets them select. */
  lemma SwitcherMatchesAccessRule(user: User, ps: seq<Product>)
    requires user.role == Admin
    ensures SwitcherProducts(user, ps) == ProductContext.AccessibleProducts(Some(user), ps)
  {
    ProductContext.AdminAccessibleIsTeam(Some(user), ps);
    SameTeamFilter(user, ps);
  }

  lemma {:induction false} SameTeamFilter(user: User, ps: seq<Product>)
    ensures SwitcherProducts(user, ps) == ProductContext.TeamProducts(Some(user), ps)
  {
    if ps != [] {
      SameTeamFilter(user, ps[1..]);
    }
  }

  /** What the shell shows: both queues and the stats, all computed over
      the whole list the hook exposes. */
  datatype AdminPanel = AdminPanel(adminQueue: seq<Ticket>, agentQueue: seq<Ticket>, stats: DashboardStats)

  function Panel(hookTickets: seq<Ticket>): (r: AdminPanel)
    ensures r.adminQueue == Dashboard.AdminQueueOf(hookTickets)
    ensures r.agentQueue == Dashboard.AgentQueueOf(hookTickets)
    ensures r.stats == GetDashboardStats(hookTickets)
    ensures r.stats.totalTickets == |hookTickets|
    ensures r.stats.openTickets == |Dashboard.OpenTicketsOf(hookTickets)|
    ensures |r.adminQueue| + |r.agentQueue| == |hookTickets|
  {
    Dashboard.QueuesPartition(hookTickets);
    Dashboard.OpenResolvedPartition(hookTickets);
    AdminPanel(Dashboard.AdminQueueOf(hookTickets), Dashboard.AgentQueueOf(hookTickets),
               GetDashboardStats(hookTickets))
  }
}
