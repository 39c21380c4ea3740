/**
 * The dashboard, frontend/src/pages/Dashboard.js: the user's domains, the
 * selected one (the first by default), and the statistics of the selected
 * domain with the detection rate and the risk colours.
 *
 * The page's three effects are folded into the handlers: when the domain
 * list arrives the first domain is selected if none is, and a change of a
 * truthy selection fetches the statistics.
 */
module DashboardPage {
  import opened Wrappers
  import opened PageKit
  import opened TrafficStats
  import DomainsPage
  import Records

  datatype DashboardRequest = ListDomains | GetStats(query: string)

  /** The selection after the domain list effect: the first domain when nothing is selected yet. */
  function DefaultSelection(domains: seq<DomainsPage.Domain>, selected: Option<string>): (r: Option<string>)
    ensures Truthy(selected) ==> r == selected
    ensures r != selected ==> |domains| > 0 && r == Some(domains[0].id)
  {
    if |domains| > 0 && !Truthy(selected) then Some(domains[0].id) else selected
  }

  /** The selection effect fetches the statistics when the selection changed to a truthy id. */
  predicate StatsRefresh(before: Option<string>, after: Option<string>) {
    after != before && Truthy(after)
  }

  /** The query string of `fetchStats`. */
  function StatsQuery(selected: Option<string>): (r: string)
    ensures r == "" <==> !Truthy(selected)
    ensures Truthy(selected) ==> |r| > 11 && r[11..] == selected.value
  {
    if Truthy(selected) then "?domain_id=" + selected.value else ""
  }

  /** `Math.round(bot / total * 100)`, and 0 without requests; halves round up. */
  function DetectionRate(bot: nat, total: nat): (r: nat)
    ensures total > 0 ==> 2 * total * r <= 200 * bot + total < 2 * total * (r + 1)
    ensures bot <= total ==> r <= 100
  {
    if total > 0 then
      var n, d := 200 * bot + total, 2 * total;
      QuotientBounds(n, d);
      if bot <= total then DivBelow(n, d, 101); n / d else n / d
    else 0
  }

  /** The quotient `n / d` is the `q` with `d·q <= n < d·q + d`. */
  lemma QuotientBounds(n: nat, d: nat)
    requires d > 0
    ensures d * (n / d) <= n < d * (n / d) + d
  {
    assert n == d * (n / d) + n % d;
  }

  /** The rate card: `stats?.total_requests > 0 ? … : 0`. */
  function DisplayedRate(stats: Option<Stats>): nat {
    if stats.Some? && stats.value.totalRequests > 0 then DetectionRate(stats.value.botRequests, stats.value.totalRequests) else 0
  }

  /** `getRiskColor`. */
  function RiskColor(risk: string): (r: string)
    ensures r == "text-gray-400" <==> RiskTone(risk) == Gray
    ensures r == "text-red-400" <==> risk == "high"
  {
    match RiskTone(risk)
    case Red => "text-red-400"
    case Yellow => "text-yellow-400"
    case Green => "text-green-400"
    case Gray => "text-gray-400"
  }

  class DashboardView {
    var stats: Option<Stats>
    var loading: bool
    var selectedDomain: Option<string>
    var domains: seq<DomainsPage.Domain>

    constructor ()
      ensures stats == None && loading && selectedDomain == None && domains == []
    {
      stats := None;
      loading := true;
      selectedDomain := None;
      domains := [];
    }

    /** `fetchStats` for the current selection; `loading` ends false either way. */
    method FetchStats(reply: Reply<Stats>) returns (requests: seq<DashboardRequest>, toasts: seq<Toast>)
      modifies this
      ensures requests == [GetStats(StatsQuery(selectedDomain))]
      ensures stats == (if reply.Ok? then Some(reply.data) else old(stats))
      ensures toasts == if reply.Ok? then [] else [ToastError("Failed to fetch statistics")]
      ensures !loading && selectedDomain == old(selectedDomain) && domains == old(domains)
    {
      loading := true;
      requests := [GetStats(StatsQuery(selectedDomain))];
      if reply.Ok? {
        stats := Some(reply.data);
        toasts := [];
      } else {
        toasts := [ToastError("Failed to fetch statistics")];
      }
      loading := false;
    }

    /** Sets the selection and runs the selection effect. */
    method ChangeSelection(selection: Option<string>, statsReply: Reply<Stats>) returns (requests: seq<DashboardRequest>, toasts: seq<Toast>)
      modifies this
      ensures selectedDomain == selection && domains == old(domains)
      ensures StatsRefresh(old(selectedDomain), selection) ==>
                && requests == [GetStats("?domain_id=" + selection.value)] && !loading
                && stats == (if statsReply.Ok? then Some(statsReply.data) else old(stats))
                && toasts == (if statsReply.Ok? then [] else [ToastError("Failed to fetch statistics")])
      ensures !StatsRefresh(old(selectedDomain), selection) ==>
                requests == [] && toasts == [] && stats == old(stats) && loading == old(loading)
    {
      var before := selectedDomain;
      selectedDomain := selection;
      if selection != before && Truthy(selection) {
        requests, toasts := FetchStats(statsReply);
      } else {
        requests, toasts := [], [];
      }
    }

    /** The domain selector's `onChange`. */
    method SelectDomain(id: string, statsReply: Reply<Stats>) returns (requests: seq<DashboardRequest>, toasts: seq<Toast>)
      modifies this
      ensures selectedDomain == Some(id) && domains == old(domains)
      ensures StatsRefresh(old(selectedDomain), Some(id)) ==>
                && requests == [GetStats("?domain_id=" + id)] && !loading
                && stats == (if statsReply.Ok? then Some(statsReply.data) else old(stats))
                && toasts == (if statsReply.Ok? then [] else [ToastError("Failed to fetch statistics")])
      ensures !StatsRefresh(old(selectedDomain), Some(id)) ==>
                requests == [] && toasts == [] && stats == old(stats) && loading == old(loading)
    {
      requests, toasts := ChangeSelection(Some(id), statsReply);
    }

    /**
     * `fetchDomains` on mount: on success the list is stored and the first
     * domain selected when none is; the statistics follow only when that
     * changed the selection.
     */
    method FetchDomains(reply: Reply<seq<DomainsPage.Domain>>, statsReply: Reply<Stats>)
      returns (requests: seq<DashboardRequest>, toasts: seq<Toast>)
      modifies this
      ensures reply.Failed? ==>
                && requests == [ListDomains] && toasts == [ToastError("Failed to fetch domains")]
                && stats == old(stats) && loading == old(loading)
                && selectedDomain == old(selectedDomain) && domains == old(domains)
      ensures reply.Ok? ==>
                && domains == reply.data
                && selectedDomain == DefaultSelection(reply.data, old(selectedDomain))
      ensures reply.Ok? && StatsRefresh(old(selectedDomain), selectedDomain) ==>
                && requests == [ListDomains, GetStats("?domain_id=" + selectedDomain.value)] && !loading
                && stats == (if statsReply.Ok? then Some(statsReply.data) else old(stats))
                && toasts == (if statsReply.Ok? then [] else [ToastError("Failed to fetch statistics")])
      ensures reply.Ok? && !StatsRefresh(old(selectedDomain), selectedDomain) ==>
                requests == [ListDomains] && toasts == [] && stats == old(stats) && loading == old(loading)
    {
      if reply.Failed? {
        return [ListDomains], [ToastError("Failed to fetch domains")];
      }
      domains := reply.data;
      requests, toasts := ChangeSelection(DefaultSelection(domains, selectedDomain), statsReply);
      requests := [ListDomains] + requests;
    }
  }

  // ---------------------------------------------------------------------
  // Properties.

  /**
   * The first domain is selected only while nothing is; a selection the
   * user made survives every later domain list.
   */
  lemma SelectionKept(domains: seq<DomainsPage.Domain>, selected: Option<string>)
    ensures Truthy(selected) ==> DefaultSelection(domains, selected) == selected
    ensures !Truthy(selected) && |domains| > 0 ==> DefaultSelection(domains, selected) == Some(domains[0].id)
    ensures domains == [] ==> !StatsRefresh(selected, DefaultSelection(domains, selected))
  {
  }

  /**
   * Statistics are always fetched for one domain: whenever the selection
   * effect fires, the query names the selected id.
   */
  lemma StatsAreFiltered(before: Option<string>, after: Option<string>)
    requires StatsRefresh(before, after)
    ensures StatsQuery(after) == "?domain_id=" + after.value
    ensures StatsQuery(after) != ""
  {
  }

  /** Without a bot request the rate is 0, and it is 100 when every request is a bot. */
  lemma RateExtremes(total: nat)
    ensures DetectionRate(0, total) == 0
    ensures total > 0 ==> DetectionRate(total, total) == 100
  {
    if total > 0 {
      QuotientIs(200 * total + total, 2 * total, 100);
    }
  }

  /** `q` is the quotient `n / d` when `d·q <= n < d·q + d`. */
  lemma QuotientIs(n: nat, d: nat, q: nat)
    requires d > 0 && d * q <= n < d * q + d
    ensures n / d == q
  {
    var p := n / d;
    QuotientBounds(n, d);
    assert p * d < (q + 1) * d;
    MulCancelLess(p, q + 1, d);
    assert q * d < (p + 1) * d;
    MulCancelLess(q, p + 1, d);
  }

  /** A quotient stays below `k` when the dividend is below `k` divisors. */
  lemma DivBelow(n: nat, d: nat, k: nat)
    requires d > 0 && n < k * d
    ensures n / d < k
  {
    var q := n / d;
    assert q * d <= n by {
      assert n == d * q + n % d;
    }
    MulCancelLess(q, k, d);
  }

  lemma MulCancelLess(a: int, b: int, d: nat)
    requires a * d < b * d
    ensures a < b
  {
  }

  /** For statistics the backend computed, the rate card shows a percentage between 0 and 100. */
  lemma BackendRateBounded(matching: seq<Records.LogRecord>)
    ensures DisplayedRate(Some(GetTrafficStats(matching))) <= 100
    ensures DisplayedRate(None) == 0
  {
    TotalsBounded(matching);
    DisplayedRateBounded(GetTrafficStats(matching));
  }

  lemma DisplayedRateBounded(st: Stats)
    requires st.botRequests <= st.totalRequests
    ensures DisplayedRate(Some(st)) <= 100
  {
  }

  /** high is red, medium yellow, low green; any other level, none included, is gray. */
  lemma RiskColors(risk: string)
    ensures RiskColor(risk) == "text-red-400" <==> risk == "high"
    ensures RiskColor(risk) == "text-yellow-400" <==> risk == "medium"
    ensures RiskColor(risk) == "text-green-400" <==> risk == "low"
    ensures RiskColor(risk) == "text-gray-400" <==> risk !in {"high", "medium", "low"}
  {
  }
}
