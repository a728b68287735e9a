/** The analytics page (`src/pages/Analytics.tsx`): the team's tickets, a
    count per status, and the figures handed to the charts. */
module Analytics {
  import opened Base
  import opened Seqs
  import opened Types
  import opened Stats
  import Layout

  /** `user?.teamId === ticket.teamId`. */
  predicate InTeam(user: Option<User>, t: Ticket) {
    user.Some? && user.value.teamId == t.teamId
  }

  function TeamTickets(user: Option<User>, ts: seq<Ticket>): (r: seq<Ticket>)
    ensures forall t :: t in r <==> t in ts && InTeam(user, t)
  {
    Filter(ts, (t: Ticket) => InTeam(user, t))
  }

  datatype StatusCounts = StatusCounts(newCount: nat, inProgress: nat, pending: nat, resolved: nat)

  predicate HasStatus(t: Ticket, s: Status) {
    t.status == s
  }

  function CountStatus(ts: seq<Ticket>, s: Status): (n: nat)
    ensures n <= |ts|
  {
    Count(ts, (t: Ticket) => HasStatus(t, s))
  }

  /** Every ticket has one of the four statuses, so the four counts add up
      to the number of tickets. */
  lemma {:induction false} StatusCountsSum(ts: seq<Ticket>)
    ensures CountStatus(ts, New) + CountStatus(ts, InProgress) + CountStatus(ts, Pending)
            + CountStatus(ts, Resolved) == |ts|
  {
    if ts != [] {
      StatusCountsSum(ts[1..]);
    }
  }

  /** `ticketsByStatus`: one count per status, together every ticket. */
  function TicketsByStatus(ts: seq<Ticket>): (c: StatusCounts)
    ensures c.newCount + c.inProgress + c.pending + c.resolved == |ts|
  {
    StatusCountsSum(ts);
    StatusCounts(CountStatus(ts, New), CountStatus(ts, InProgress),
                 CountStatus(ts, Pending), CountStatus(ts, Resolved))
  }

  datatype DayCount = DayCount(day: string, tickets: nat)

  /** The figures handed to the key-metric, distribution and trend panels. */
  datatype AnalyticsData = AnalyticsData(averageResolutionTime: string,
                                         firstResponseTime: string,
                                         satisfactionScore: string,
                                         ticketsByStatus: StatusCounts,
                                         weekAgoVolume: nat,
                                         topAgents: seq<string>,
                                         weeklyTrends: seq<DayCount>)

  const Weekdays: seq<string> := ["Mon", "Tue", "Wed", "Thu", "Fri", "Sat", "Sun"]

  /** `analyticsData`, over the team's tickets. */
  function AnalyticsFor(user: Option<User>, ts: seq<Ticket>): (a: AnalyticsData)
    ensures var mine := TeamTickets(user, ts);
            && a.averageResolutionTime == GetDashboardStats(mine).avgResponseTime
            && a.firstResponseTime == a.averageResolutionTime
            && a.satisfactionScore == GetDashboardStats(mine).satisfaction
            && a.ticketsByStatus == TicketsByStatus(mine)
            && a.weekAgoVolume == |mine|
    ensures a.topAgents == []
    ensures |a.weeklyTrends| == 7
    ensures forall i :: 0 <= i < 7 ==> a.weeklyTrends[i] == DayCount(Weekdays[i], 0)
  {
    var mine := TeamTickets(user, ts);
    var stats := GetDashboardStats(mine);
    AnalyticsData(stats.avgResponseTime, stats.avgResponseTime, stats.satisfaction,
                  TicketsByStatus(mine), |mine|, [],
                  seq(7, i requires 0 <= i < 7 => DayCount(Weekdays[i], 0)))
  }

  /** The week-ago volume is the total the status counts add up to. */
  lemma VolumeIsStatusTotal(user: Option<User>, ts: seq<Ticket>)
    ensures var a := AnalyticsFor(user, ts);
            a.ticketsByStatus.newCount + a.ticketsByStatus.inProgress + a.ticketsByStatus.pending
            + a.ticketsByStatus.resolved == a.weekAgoVolume
  {
    var c := TicketsByStatus(TeamTickets(user, ts));
  }

  /** Customers get 'Access Denied'; everyone else, including a missing
      user, the page. The page is shown exactly to the users whose product
      navigation links to it. */
  predicate ShowsAnalytics(user: Option<User>)
    ensures ShowsAnalytics(user) <==> Layout.Page.Analytics in Layout.Names(Layout.ProductNavigation(user))
  {
    Layout.ProductNavigationByRole(user);
    !(user.Some? && user.value.role == Customer)
  }
}
