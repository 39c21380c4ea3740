/**
 * The statistics endpoint of the backend (`get_traffic_stats` in
 * backend/server.py): totals, distinct client addresses, the ten most
 * frequent bots, the risk histogram and the ten most recent requests,
 * all computed from the traffic logs the database query returned.
 *
 * `collections.Counter` is modelled as a tally: a list of (key, count)
 * entries in order of first occurrence, which is the order a Python dict
 * keeps. `sorted(..., reverse=True)` and `Counter.most_common(n)` are
 * modelled by one stable descending sort.
 */
module TrafficStats {
  import opened Wrappers
  import opened Records

  /** One entry of `top_bots`. */
  datatype BotCount = BotCount(name: string, count: nat)

  /** StatsResponse. */
  datatype Stats = Stats(totalRequests: nat, botRequests: nat, uniqueIps: nat,
                         topBots: seq<BotCount>, riskDistribution: seq<(string, nat)>,
                         recentActivity: seq<LogRecord>)

  /** The query result is read with `to_list(10000)`. */
  const FetchLimit: nat := 10000
  const TopBotsLimit: nat := 10
  const RecentLimit: nat := 10

  // ---------------------------------------------------------------------
  // Sequence helpers.

  /** `s[:n]` in Python. */
  function Take<T>(s: seq<T>, n: nat): (r: seq<T>)
    ensures |r| == if |s| < n then |s| else n
    ensures r == s[..|r|]
  {
    if |s| <= n then s else s[..n]
  }

  predicate Distinct<K(==)>(s: seq<K>) {
    forall i, j :: 0 <= i < j < |s| ==> s[i] != s[j]
  }

  /** How often `k` occurs in `s`. */
  function Occurrences<K(==)>(s: seq<K>, k: K): nat {
    if s == [] then 0 else Occurrences(s[..|s| - 1], k) + (if s[|s| - 1] == k then 1 else 0)
  }

  lemma {:induction false} OccurrencesAbsent<K>(s: seq<K>, k: K)
    requires k !in s
    ensures Occurrences(s, k) == 0
  {
    if s != [] {
      assert k !in s[..|s| - 1] by {
        forall y | y in s[..|s| - 1] ensures y in s { }
      }
      OccurrencesAbsent(s[..|s| - 1], k);
    }
  }

  // ---------------------------------------------------------------------
  // Counter.

  function Keys<K>(t: seq<(K, nat)>): (r: seq<K>)
    ensures |r| == |t| && forall i :: 0 <= i < |t| ==> r[i] == t[i].0
  {
    seq(|t|, i requires 0 <= i < |t| => t[i].0)
  }

  function SumCounts<K>(t: seq<(K, nat)>): nat {
    if t == [] then 0 else t[0].1 + SumCounts(t[1..])
  }

  /**
   * One `counter[x] += 1` on a tally with distinct keys: the entry for `x`
   * goes up by one, or a new entry (x, 1) is appended at the end.
   */
  function Bump<K(==)>(t: seq<(K, nat)>, x: K): (r: seq<(K, nat)>)
    requires Distinct(Keys(t))
    ensures |r| == if x in Keys(t) then |t| else |t| + 1
    ensures forall i :: 0 <= i < |t| ==> r[i].0 == t[i].0 && r[i].1 == t[i].1 + (if t[i].0 == x then 1 else 0)
    ensures x !in Keys(t) ==> r[|t|] == (x, 1)
    ensures SumCounts(r) == SumCounts(t) + 1
  {
    if t == [] then [(x, 1)]
    else if t[0].0 == x then
      assert x !in Keys(t[1..]) by {
        forall i | 0 <= i < |t| - 1 ensures Keys(t[1..])[i] != x {
          assert Keys(t)[i + 1] == t[1..][i].0;
        }
      }
      [(x, t[0].1 + 1)] + t[1..]
    else
      assert Keys(t[1..]) == Keys(t)[1..];
      var rest := Bump(t[1..], x);
      assert x in Keys(t) <==> x in Keys(t[1..]) by {
        assert Keys(t) == [t[0].0] + Keys(t[1..]);
      }
      assert ([t[0]] + rest)[1..] == rest;
      [t[0]] + rest
  }

  /**
   * `t` is what `Counter(s)` holds: distinct keys, exactly the elements of
   * `s`, each with its number of occurrences (so at least one), and the
   * counts add up to the length of `s`.
   */
  ghost predicate IsTally<K>(t: seq<(K, nat)>, s: seq<K>) {
    && Distinct(Keys(t))
    && (forall i :: 0 <= i < |s| ==> s[i] in Keys(t))
    && (forall i :: 0 <= i < |t| ==> t[i].0 in s)
    && (forall i :: 0 <= i < |t| ==> t[i].1 == Occurrences(s, t[i].0) && t[i].1 >= 1)
    && SumCounts(t) == |s|
  }

  /** `Counter(s)`, filled in order, so its entries come in order of first occurrence. */
  function Tally<K(==)>(s: seq<K>): (r: seq<(K, nat)>)
    ensures IsTally(r, s)
  {
    if s == [] then []
    else
      var t := Tally(s[..|s| - 1]);
      TallyLast(t, s);
      Bump(t, s[|s| - 1])
  }

  /** Counting the last element of `s` onto the tally of the rest gives the tally of `s`. */
  lemma TallyLast<K>(t: seq<(K, nat)>, s: seq<K>)
    requires s != [] && IsTally(t, s[..|s| - 1])
    ensures IsTally(Bump(t, s[|s| - 1]), s)
  {
    var init, x := s[..|s| - 1], s[|s| - 1];
    TallyStep(t, init, x);
    assert init + [x] == s;
  }

  /** Counting one more element keeps the tally exact. */
  lemma TallyStep<K>(t: seq<(K, nat)>, s: seq<K>, x: K)
    requires IsTally(t, s)
    ensures IsTally(Bump(t, x), s + [x])
  {
    TallyStepKeys(t, s, x);
    TallyStepCounts(t, s, x);
  }

  /** The keys after a bump: the same, or `x` appended. */
  lemma BumpKeys<K>(t: seq<(K, nat)>, x: K)
    requires Distinct(Keys(t))
    ensures Keys(Bump(t, x)) == if x in Keys(t) then Keys(t) else Keys(t) + [x]
  {
  }

  lemma TallyStepKeys<K>(t: seq<(K, nat)>, s: seq<K>, x: K)
    requires IsTally(t, s)
    ensures var r := Bump(t, x);
            && Distinct(Keys(r))
            && (forall i :: 0 <= i < |s| + 1 ==> (s + [x])[i] in Keys(r))
            && (forall i :: 0 <= i < |r| ==> r[i].0 in s + [x])
  {
    BumpKeys(t, x);
    if x !in Keys(t) {
      DistinctAppend(Keys(t), x);
    }
    BumpCoversAll(t, s, x);
    BumpKeysFromSeq(t, s, x);
  }

  lemma DistinctAppend<K>(k: seq<K>, x: K)
    requires Distinct(k) && x !in k
    ensures Distinct(k + [x])
  {
    var k' := k + [x];
    forall i, j | 0 <= i < j < |k'| ensures k'[i] != k'[j] {
      assert k'[i] == k[i];
      if j == |k| {
        assert k[i] in k;
      }
    }
  }

  /** Every element of `s + [x]` is a key after the bump. */
  lemma BumpCoversAll<K>(t: seq<(K, nat)>, s: seq<K>, x: K)
    requires Distinct(Keys(t))
    requires forall i :: 0 <= i < |s| ==> s[i] in Keys(t)
    ensures forall i :: 0 <= i < |s| + 1 ==> (s + [x])[i] in Keys(Bump(t, x))
  {
    var s', k, k' := s + [x], Keys(t), Keys(Bump(t, x));
    BumpKeys(t, x);
    assert x in k';
    forall i | 0 <= i < |s'| ensures s'[i] in k' {
      if i < |s| {
        assert s'[i] == s[i] && s[i] in k;
        var j :| 0 <= j < |k| && k[j] == s[i];
        assert k'[j] == k[j];
      }
    }
  }

  /** Every key after the bump is an element of `s + [x]`. */
  lemma BumpKeysFromSeq<K>(t: seq<(K, nat)>, s: seq<K>, x: K)
    requires Distinct(Keys(t))
    requires forall i :: 0 <= i < |t| ==> t[i].0 in s
    ensures var r := Bump(t, x); forall i :: 0 <= i < |r| ==> r[i].0 in s + [x]
  {
    var r, s' := Bump(t, x), s + [x];
    forall i | 0 <= i < |r| ensures r[i].0 in s' {
      if i < |t| {
        assert r[i].0 == t[i].0 && t[i].0 in s;
        var j :| 0 <= j < |s| && s[j] == t[i].0;
        assert s'[j] == s[j];
      } else {
        assert r[i].0 == x && s'[|s|] == x;
      }
    }
  }

  lemma TallyStepCounts<K>(t: seq<(K, nat)>, s: seq<K>, x: K)
    requires IsTally(t, s)
    ensures var r := Bump(t, x);
            forall i :: 0 <= i < |r| ==> r[i].1 == Occurrences(s + [x], r[i].0) && r[i].1 >= 1
  {
    var r := Bump(t, x);
    var s' := s + [x];
    assert s'[..|s|] == s;
    forall i | 0 <= i < |r| ensures r[i].1 == Occurrences(s', r[i].0) && r[i].1 >= 1 {
      if i == |t| {
        assert x !in s;
        OccurrencesAbsent(s, x);
      }
    }
  }

  // ---------------------------------------------------------------------
  // Stable descending sort.

  predicate SortedDesc<T>(s: seq<T>, key: T -> int) {
    forall i, j :: 0 <= i < j < |s| ==> key(s[i]) >= key(s[j])
  }

  /** Places `x` in front of the first element whose key is not above its own. */
  function InsertDesc<T>(x: T, s: seq<T>, key: T -> int): (r: seq<T>)
    ensures multiset(r) == multiset(s) + multiset{x}
    ensures SortedDesc(s, key) ==> SortedDesc(r, key)
  {
    if s == [] || key(s[0]) <= key(x) then [x] + s
    else
      var rest := InsertDesc(x, s[1..], key);
      assert s == [s[0]] + s[1..];
      InsertKeepsOrder(x, s, key, rest);
      [s[0]] + rest
  }

  /** An element kept in front of the insertion point stays in front of everything after it. */
  lemma InsertKeepsOrder<T>(x: T, s: seq<T>, key: T -> int, rest: seq<T>)
    requires s != [] && key(x) < key(s[0])
    requires multiset(rest) == multiset(s[1..]) + multiset{x}
    requires SortedDesc(s[1..], key) ==> SortedDesc(rest, key)
    ensures SortedDesc(s, key) ==> SortedDesc([s[0]] + rest, key)
  {
    if SortedDesc(s, key) {
      var r := [s[0]] + rest;
      forall i, j | 0 <= i < j < |r| ensures key(r[i]) >= key(r[j]) {
        if i == 0 {
          var e := rest[j - 1];
          assert e in multiset(rest);
          if e != x {
            assert e in multiset(s[1..]);
            var k :| 0 <= k < |s[1..]| && s[1..][k] == e;
            assert s[k + 1] == e;
          }
        } else {
          assert r[i] == rest[i - 1] && r[j] == rest[j - 1];
        }
      }
    }
  }

  /** `sorted(s, key=key, reverse=True)`: a stable sort on descending keys (see `SortDescStable`). */
  function SortDesc<T>(s: seq<T>, key: T -> int): (r: seq<T>)
    ensures multiset(r) == multiset(s)
    ensures SortedDesc(r, key)
  {
    if s == [] then []
    else
      assert s == [s[0]] + s[1..];
      InsertDesc(s[0], SortDesc(s[1..], key), key)
  }

  /** The elements of `s` whose key is `k`, in the order they come in `s`. */
  function KeyRun<T>(s: seq<T>, key: T -> int, k: int): seq<T> {
    if s == [] then []
    else (if key(s[0]) == k then [s[0]] else []) + KeyRun(s[1..], key, k)
  }

  lemma KeyRunCons<T>(e: T, t: seq<T>, key: T -> int, k: int)
    ensures KeyRun([e] + t, key, k) == (if key(e) == k then [e] else []) + KeyRun(t, key, k)
  {
    assert ([e] + t)[1..] == t;
  }

  /** Inserting adds `x` in front of the elements of its own key and leaves every other key's run alone. */
  lemma {:induction false} InsertDescRun<T>(x: T, s: seq<T>, key: T -> int, k: int)
    ensures KeyRun(InsertDesc(x, s, key), key, k) == (if key(x) == k then [x] else []) + KeyRun(s, key, k)
  {
    if s == [] || key(s[0]) <= key(x) {
      assert InsertDesc(x, s, key) == [x] + s;
      KeyRunCons(x, s, key, k);
    } else {
      var rest := InsertDesc(x, s[1..], key);
      assert InsertDesc(x, s, key) == [s[0]] + rest;
      InsertDescRun(x, s[1..], key, k);
      KeyRunCons(s[0], rest, key, k);
      assert s == [s[0]] + s[1..];
      KeyRunCons(s[0], s[1..], key, k);
      var head := if key(s[0]) == k then [s[0]] else [];
      var mine := if key(x) == k then [x] else [];
      assert head == [] || mine == [];
      assert head + (mine + KeyRun(s[1..], key, k)) == mine + (head + KeyRun(s[1..], key, k));
    }
  }

  /**
   * The sort is stable: for every key, the elements with that key come out
   * in the order they came in, so ties keep their input order.
   */
  lemma {:induction false} SortDescStable<T>(s: seq<T>, key: T -> int, k: int)
    ensures KeyRun(SortDesc(s, key), key, k) == KeyRun(s, key, k)
  {
    if s != [] {
      SortDescStable(s[1..], key, k);
      InsertDescRun(s[0], SortDesc(s[1..], key), key, k);
    }
  }

  lemma SortDescLength<T>(s: seq<T>, key: T -> int)
    ensures |SortDesc(s, key)| == |s|
  {
    assert |multiset(SortDesc(s, key))| == |multiset(s)|;
  }

  function CountKey<K>(e: (K, nat)): int { e.1 }

  /** `counter.most_common(n)`, which Python defines as `sorted(items, key=count, reverse=True)[:n]`. */
  function MostCommon<K>(t: seq<(K, nat)>, n: nat): (r: seq<(K, nat)>)
    ensures |r| == if |t| < n then |t| else n
    ensures SortedDesc(r, CountKey)
    ensures multiset(r) <= multiset(t)
  {
    SortDescLength(t, CountKey);
    TakeSortedIsTop(t, CountKey, n);
    Take(SortDesc(t, CountKey), n)
  }

  /**
   * The first `n` of a descending sort are the `n` largest: they come in
   * descending order, are drawn from the input, and nothing left out is
   * larger than anything kept.
   */
  lemma TakeSortedIsTop<T>(s: seq<T>, key: T -> int, n: nat)
    ensures var sorted := SortDesc(s, key);
            var top := Take(sorted, n);
            && SortedDesc(top, key)
            && multiset(top) <= multiset(s)
            && multiset(top) + multiset(sorted[|top|..]) == multiset(s)
            && forall i, j :: 0 <= i < |top| <= j < |sorted| ==> key(sorted[j]) <= key(top[i])
  {
    var sorted := SortDesc(s, key);
    var top := Take(sorted, n);
    assert sorted == top + sorted[|top|..];
  }

  // ---------------------------------------------------------------------
  // The statistics.

  /** `sum(1 for log in logs if log.get('detected_bot'))`. */
  function CountBotRequests(logs: seq<LogRecord>): (r: nat)
    ensures r <= |logs|
  {
    if logs == [] then 0
    else CountBotRequests(logs[..|logs| - 1]) + (if Truthy(logs[|logs| - 1].detectedBot) then 1 else 0)
  }

  /** The generator fed to the bot Counter: every truthy `detected_bot`, in log order. */
  function BotNames(logs: seq<LogRecord>): seq<string> {
    if logs == [] then []
    else
      var last := logs[|logs| - 1];
      BotNames(logs[..|logs| - 1]) + (if Truthy(last.detectedBot) then [last.detectedBot.value] else [])
  }

  function IpAddresses(logs: seq<LogRecord>): set<string> {
    set l | l in logs :: l.ipAddress
  }

  function RiskLevels(logs: seq<LogRecord>): (r: seq<string>)
    ensures |r| == |logs| && forall i :: 0 <= i < |logs| ==> r[i] == logs[i].riskLevel
  {
    seq(|logs|, i requires 0 <= i < |logs| => logs[i].riskLevel)
  }

  function TimestampKey(l: LogRecord): int { l.timestamp }

  function ToBotCounts(t: seq<(string, nat)>): (r: seq<BotCount>)
    ensures |r| == |t| && forall i :: 0 <= i < |t| ==> r[i] == BotCount(t[i].0, t[i].1)
  {
    seq(|t|, i requires 0 <= i < |t| => BotCount(t[i].0, t[i].1))
  }

  /** `top_bots`: the Counter over the bot names, ten most common first. */
  function TopBots(logs: seq<LogRecord>): (r: seq<BotCount>)
    ensures |r| <= TopBotsLimit
    ensures forall i, j :: 0 <= i < j < |r| ==> r[i].count >= r[j].count
  {
    ToBotCounts(MostCommon(Tally(BotNames(logs)), TopBotsLimit))
  }

  /** `dict(Counter(risk levels))`. */
  function RiskDistribution(logs: seq<LogRecord>): (r: seq<(string, nat)>)
    ensures IsTally(r, RiskLevels(logs))
    ensures SumCounts(r) == |logs|
  {
    Tally(RiskLevels(logs))
  }

  /** `sorted(logs, key=timestamp, reverse=True)[:10]`. */
  function RecentActivity(logs: seq<LogRecord>): (r: seq<LogRecord>)
    ensures |r| == if |logs| < RecentLimit then |logs| else RecentLimit
    ensures SortedDesc(r, TimestampKey)
    ensures multiset(r) <= multiset(logs)
  {
    SortDescLength(logs, TimestampKey);
    TakeSortedIsTop(logs, TimestampKey, RecentLimit);
    Take(SortDesc(logs, TimestampKey), RecentLimit)
  }

  /** `get_traffic_stats` over the logs the query matched (already filtered by user, domain and window). */
  function GetTrafficStats(matching: seq<LogRecord>): (r: Stats)
    ensures r.totalRequests == if |matching| < FetchLimit then |matching| else FetchLimit
    ensures r.botRequests <= r.totalRequests && r.uniqueIps <= r.totalRequests
    ensures |r.topBots| <= TopBotsLimit && |r.recentActivity| <= RecentLimit
  {
    var logs := Take(matching, FetchLimit);
    UniqueIpsBound(logs);
    Stats(|logs|, CountBotRequests(logs), |IpAddresses(logs)|,
          TopBots(logs), RiskDistribution(logs), RecentActivity(logs))
  }

  // ---------------------------------------------------------------------
  // Properties of the statistics.

  /** Each bot-flagged log contributes exactly one name to the Counter. */
  lemma {:induction false} BotNamesCount(logs: seq<LogRecord>)
    ensures |BotNames(logs)| == CountBotRequests(logs) <= |logs|
  {
    if logs != [] {
      BotNamesCount(logs[..|logs| - 1]);
    }
  }

  /** There are never more distinct addresses than logs, and none only when there are no logs. */
  lemma {:induction false} UniqueIpsBound(logs: seq<LogRecord>)
    ensures |IpAddresses(logs)| <= |logs|
    ensures |IpAddresses(logs)| == 0 <==> logs == []
  {
    if logs != [] {
      var init := logs[..|logs| - 1];
      UniqueIpsBound(init);
      assert logs == init + [logs[|logs| - 1]];
      assert IpAddresses(logs) == IpAddresses(init) + {logs[|logs| - 1].ipAddress};
    }
  }

  /** The totals: bots and distinct addresses never exceed the request count, which is capped by the fetch. */
  lemma TotalsBounded(matching: seq<LogRecord>)
    ensures var st := GetTrafficStats(matching);
            && st.totalRequests == (if |matching| < FetchLimit then |matching| else FetchLimit)
            && st.botRequests <= st.totalRequests
            && st.uniqueIps <= st.totalRequests
            && (st.uniqueIps == 0 <==> st.totalRequests == 0)
  {
    var logs := Take(matching, FetchLimit);
    BotNamesCount(logs);
    UniqueIpsBound(logs);
  }

  /** The risk histogram has one entry per risk level seen, each with its exact count, summing to the total. */
  lemma RiskDistributionExact(matching: seq<LogRecord>)
    ensures var st := GetTrafficStats(matching);
            && IsTally(st.riskDistribution, RiskLevels(Take(matching, FetchLimit)))
            && SumCounts(st.riskDistribution) == st.totalRequests
  {
  }

  /** Every entry `most_common` returns is an entry of the Counter, so its count is exact. */
  lemma MostCommonEntriesExact<K>(t: seq<(K, nat)>, s: seq<K>, n: nat)
    requires IsTally(t, s)
    ensures forall e :: e in MostCommon(t, n) ==> e.0 in s && e.1 == Occurrences(s, e.0) && e.1 >= 1
  {
    var sorted := SortDesc(t, CountKey);
    forall e | e in MostCommon(t, n) ensures e.0 in s && e.1 == Occurrences(s, e.0) && e.1 >= 1 {
      assert e in sorted;
      assert e in multiset(t);
      var k :| 0 <= k < |t| && t[k] == e;
    }
  }

  /** `top_bots` holds at most ten entries, in non-increasing count order. */
  lemma TopBotsOrdered(logs: seq<LogRecord>)
    ensures var top := TopBots(logs);
            && |top| <= TopBotsLimit
            && forall i, j :: 0 <= i < j < |top| ==> top[i].count >= top[j].count
  {
    TakeSortedIsTop(Tally(BotNames(logs)), CountKey, TopBotsLimit);
  }

  /** Each entry of `top_bots` is a bot that was seen, with its exact count, which is at least one. */
  lemma TopBotsExact(logs: seq<LogRecord>)
    ensures var top := TopBots(logs);
            var names := BotNames(logs);
            forall i :: 0 <= i < |top| ==> top[i].name in names && top[i].count == Occurrences(names, top[i].name) >= 1
  {
    var names := BotNames(logs);
    var mc := MostCommon(Tally(names), TopBotsLimit);
    MostCommonEntriesExact(Tally(names), names, TopBotsLimit);
    forall i | 0 <= i < |mc| ensures mc[i] in mc { }
  }

  /** No bot left out of `top_bots` was seen more often than any bot listed. */
  lemma TopBotsAreLargest(logs: seq<LogRecord>)
    ensures var top := TopBots(logs);
            var tally := Tally(BotNames(logs));
            var sorted := SortDesc(tally, CountKey);
            && multiset(sorted) == multiset(tally)
            && top == ToBotCounts(sorted[..|top|])
            && forall i, j :: 0 <= i < |top| <= j < |sorted| ==> sorted[j].1 <= top[i].count
  {
    TakeSortedIsTop(Tally(BotNames(logs)), CountKey, TopBotsLimit);
  }

  /**
   * `recent_activity`: the ten (or fewer) latest logs, newest first; every
   * one is a fetched log, and no log left out is newer than one kept.
   */
  lemma RecentActivityIsLatest(logs: seq<LogRecord>)
    ensures var recent := RecentActivity(logs);
            var sorted := SortDesc(logs, TimestampKey);
            && |recent| == (if |logs| < RecentLimit then |logs| else RecentLimit)
            && (forall i, j :: 0 <= i < j < |recent| ==> recent[i].timestamp >= recent[j].timestamp)
            && multiset(recent) <= multiset(logs)
            && multiset(recent) + multiset(sorted[|recent|..]) == multiset(logs)
            && forall i, j :: 0 <= i < |recent| <= j < |sorted| ==> sorted[j].timestamp <= recent[i].timestamp
  {
    TakeSortedIsTop(logs, TimestampKey, RecentLimit);
    var sorted := SortDesc(logs, TimestampKey);
    assert |sorted| == |logs| by {
      assert |multiset(sorted)| == |multiset(logs)|;
    }
  }
}
