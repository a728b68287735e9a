/** Dashboard statistics (`src/data/stats.ts`): ticket counts, the mean time
    to first response in whole hours, and the mean rating as a percentage,
    each rendered as text. Time stamps are integer milliseconds, so the
    floating-point means become exact rationals rounded as `Math.round` does. */
module Stats {
  import opened Base
  import opened Seqs
  import opened Strings
  import opened Types

  const MillisPerHour: int := 1000 * 60 * 60

  /** `Math.round(n / d)` for a positive `d`: the integer nearest to `n / d`,
      halves rounded up (towards +infinity). */
  function RoundDiv(n: int, d: int): (r: int)
    requires d > 0
    ensures 2 * r * d <= 2 * n + d < 2 * r * d + 2 * d
  {
    (2 * n + d) / (2 * d)
  }

  lemma {:induction false} MulAtLeast(k: int, m: int)
    requires k >= 1 && m > 0
    ensures k * m >= m
    decreases k
  {
    if k > 1 {
      MulAtLeast(k - 1, m);
      assert k * m == (k - 1) * m + m;
    }
  }

  /** Euclidean division of `q * m + rem` by `m` gives back `q`. */
  lemma DivExact(q: int, m: int, rem: int)
    requires m > 0 && 0 <= rem < m
    ensures (q * m + rem) / m == q
  {
    var x := q * m + rem;
    var q', r' := x / m, x % m;
    assert (q - q') * m == r' - rem by {
      assert x == q' * m + r';
      assert (q - q') * m == q * m - q' * m;
    }
    if q > q' {
      MulAtLeast(q - q', m);
    } else if q < q' {
      assert (q' - q) * m == -((q - q') * m);
      MulAtLeast(q' - q, m);
    }
  }

  /** The characterisation pins the rounding down: only one integer satisfies it. */
  lemma RoundDivUnique(n: int, d: int, r: int)
    requires d > 0
    requires 2 * r * d <= 2 * n + d < 2 * r * d + 2 * d
    ensures r == RoundDiv(n, d)
  {
    assert 2 * r * d == r * (2 * d);
    DivExact(r, 2 * d, 2 * n + d - 2 * r * d);
  }

  function Sum(s: seq<int>): int {
    if s == [] then 0 else s[0] + Sum(s[1..])
  }

  /** `t.firstResponseAt` is truthy. */
  predicate HasFirstResponse(t: Ticket) {
    t.firstResponseAt.Some?
  }

  /** `t.satisfaction` is truthy: present and not 0. */
  predicate IsRated(t: Ticket) {
    t.satisfaction.Some? && t.satisfaction.value != 0
  }

  /** The time from creation to first response of a ticket that has one. */
  function ResponseTime(t: Ticket): int
    requires HasFirstResponse(t)
  {
    t.firstResponseAt.value - t.createdAt
  }

  /** `responseTimes`: first response minus creation, for every ticket that
      has a first response, in order. */
  function ResponseTimes(ts: seq<Ticket>): (r: seq<int>)
    ensures |r| == Count(ts, HasFirstResponse)
    ensures forall i :: 0 <= i < |r| ==> r[i] == ResponseTime(Filter(ts, HasFirstResponse)[i])
  {
    if ts == [] then []
    else
      var head := if HasFirstResponse(ts[0]) then [ResponseTime(ts[0])] else [];
      var rest := ResponseTimes(ts[1..]);
      assert Filter(ts, HasFirstResponse)
          == (if HasFirstResponse(ts[0]) then [ts[0]] else []) + Filter(ts[1..], HasFirstResponse);
      head + rest
  }

  /** The ratings of the rated tickets, in order. */
  function Ratings(ts: seq<Ticket>): (r: seq<int>)
    ensures |r| == Count(ts, IsRated)
    ensures forall i :: 0 <= i < |r| ==> r[i] == Filter(ts, IsRated)[i].satisfaction.value
  {
    if ts == [] then []
    else
      var head := if IsRated(ts[0]) then [ts[0].satisfaction.value] else [];
      var rest := Ratings(ts[1..]);
      assert Filter(ts, IsRated)
          == (if IsRated(ts[0]) then [ts[0]] else []) + Filter(ts[1..], IsRated);
      head + rest
  }

  /** `avgResponseTime` before formatting: null without any response,
      otherwise the mean response time in hours, rounded to the nearest
      whole hour (halves up). */
  function AvgResponseHours(ts: seq<Ticket>): (r: Option<int>)
    ensures r.None? <==> forall i :: 0 <= i < |ts| ==> !HasFirstResponse(ts[i])
    ensures r.Some? ==>
              var s, d := Sum(ResponseTimes(ts)), Count(ts, HasFirstResponse) * MillisPerHour;
              2 * r.value * d <= 2 * s + d < 2 * r.value * d + 2 * d
  {
    var times := ResponseTimes(ts);
    if |times| > 0 then Some(RoundDiv(Sum(times), |times| * MillisPerHour)) else None
  }

  /** `satisfaction` before formatting: null without any rating, otherwise
      the mean rating times 100, rounded to the nearest integer (halves up). */
  function SatisfactionPercent(ts: seq<Ticket>): (r: Option<int>)
    ensures r.None? <==> forall i :: 0 <= i < |ts| ==> !IsRated(ts[i])
    ensures r.Some? ==>
              var s, d := 100 * Sum(Ratings(ts)), Count(ts, IsRated);
              2 * r.value * d <= 2 * s + d < 2 * r.value * d + 2 * d
  {
    var rs := Ratings(ts);
    if |rs| > 0 then Some(RoundDiv(100 * Sum(rs), |rs|)) else None
  }

  datatype DashboardStats = DashboardStats(totalTickets: nat, openTickets: nat,
                                           avgResponseTime: string, satisfaction: string)

  /** A statistic as text: `${v}` followed by `unit` when the value is truthy
      (present and not 0), otherwise the `fallback` text. */
  function ValueText(v: Option<int>, unit: string, fallback: string): (r: string)
    ensures v.Some? && v.value != 0 ==> r == IntToString(v.value) + unit
    ensures v.None? || v.value == 0 ==> r == fallback
  {
    if v.Some? && v.value != 0 then IntToString(v.value) + unit else fallback
  }

  /** When the fallback does not end the way the unit does, the fallback text
      is shown exactly for a missing or zero value. */
  lemma ValueTextFallbackIff(v: Option<int>, unit: string, fallback: string)
    requires unit != [] && (fallback == [] || fallback[|fallback| - 1] != unit[|unit| - 1])
    ensures ValueText(v, unit, fallback) == fallback <==> v.None? || v.value == 0
  {
    if v.Some? && v.value != 0 {
      var r := IntToString(v.value) + unit;
      assert r[|r| - 1] == unit[|unit| - 1];
    }
  }

  predicate IsOpen(t: Ticket) {
    t.status != Resolved
  }

  predicate IsResolved(t: Ticket) {
    t.status == Resolved
  }

  function GetDashboardStats(ts: seq<Ticket>): (s: DashboardStats)
    ensures s.totalTickets == |ts|
    ensures s.openTickets == Count(ts, IsOpen) && s.openTickets <= s.totalTickets
    ensures s.avgResponseTime == ValueText(AvgResponseHours(ts), "h", "No data")
    ensures s.satisfaction == ValueText(SatisfactionPercent(ts), "%", "Not available")
  {
    DashboardStats(|ts|, Count(ts, IsOpen), ValueText(AvgResponseHours(ts), "h", "No data"),
                   ValueText(SatisfactionPercent(ts), "%", "Not available"))
  }

  /** Open and resolved tickets together make up the total. */
  lemma OpenAndResolvedTotal(ts: seq<Ticket>)
    ensures GetDashboardStats(ts).openTickets + Count(ts, IsResolved) == |ts|
  {
    FilterPartition(ts, IsOpen, IsResolved);
  }

  /** The text is 'No data' exactly when nobody responded or the mean rounds
      to 0 hours. */
  lemma NoDataCases(ts: seq<Ticket>)
    ensures GetDashboardStats(ts).avgResponseTime == "No data" <==>
              (forall i :: 0 <= i < |ts| ==> !HasFirstResponse(ts[i]))
              || AvgResponseHours(ts) == Some(0)
  {
    ValueTextFallbackIff(AvgResponseHours(ts), "h", "No data");
  }

  /** A single answer after 20 minutes rounds to 0 hours and reads 'No data'. */
  lemma QuickAnswerReadsNoData(t: Ticket)
    requires t.firstResponseAt == Some(t.createdAt + 20 * 60 * 1000)
    ensures GetDashboardStats([t]).avgResponseTime == "No data"
  {
    assert [t][1..] == [];
    assert ResponseTimes([t]) == [20 * 60 * 1000];
    assert Sum([20 * 60 * 1000]) == 20 * 60 * 1000;
    RoundDivUnique(20 * 60 * 1000, MillisPerHour, 0);
    assert AvgResponseHours([t]) == Some(0);
  }

  /** A sum of `n` equal values. */
  lemma {:induction false} SumOfEqual(s: seq<int>, v: int)
    requires forall i :: 0 <= i < |s| ==> s[i] == v
    ensures Sum(s) == |s| * v
  {
    if s != [] {
      SumOfEqual(s[1..], v);
    }
  }

  /** Ratings are not scaled from the five-star range: if every rated ticket
      has 5, the satisfaction reads '500%'. */
  lemma {:induction false} AllFivesReadFiveHundred(ts: seq<Ticket>)
    requires exists i :: 0 <= i < |ts| && IsRated(ts[i])
    requires forall i :: 0 <= i < |ts| && IsRated(ts[i]) ==> ts[i].satisfaction == Some(5)
    ensures SatisfactionPercent(ts) == Some(500)
    ensures GetDashboardStats(ts).satisfaction == IntToString(500) + "%"
  {
    RatingsAllFive(ts);
    var rs := Ratings(ts);
    SumOfEqual(rs, 5);
    var n := |rs|;
    assert n > 0;
    assert RoundDiv(100 * (n * 5), n) == 500 by {
      assert 2 * (100 * (n * 5)) + n == 1001 * n;
      assert 1000 * n <= 1001 * n < 1002 * n;
      RoundDivUnique(100 * (n * 5), n, 500);
    }
  }

  lemma {:induction false} RatingsAllFive(ts: seq<Ticket>)
    requires forall i :: 0 <= i < |ts| && IsRated(ts[i]) ==> ts[i].satisfaction == Some(5)
    ensures forall i :: 0 <= i < |Ratings(ts)| ==> Ratings(ts)[i] == 5
  {
    if ts != [] {
      RatingsAllFive(ts[1..]);
    }
  }
}
