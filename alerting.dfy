/**
 * Traffic ingestion and alerting in the backend (`log_traffic` and
 * `check_and_send_alerts` in backend/server.py). The database reads are
 * inputs: the API keys, domains, traffic logs and alerts collections as
 * sequences, and the clock as an integer `now` (seconds).
 */
module Alerting {
  import opened Wrappers
  import opened Text
  import opened Records
  import opened BotDetection
  import opened TrafficStats

  /** TrafficLogCreate, the body of POST /traffic/log. */
  datatype TrafficLogCreate = TrafficLogCreate(domain: string, apiKey: string, ipAddress: string,
                                               userAgent: string, requestPath: string, requestMethod: string)

  /** `{"success": True, "bot_detected": ..., "confidence": ...}`; confidence in tenths. */
  datatype LogResponse = LogResponse(botDetected: bool, confidence: nat)

  /** What `log_traffic` does: raise an HTTP error, or store a log, maybe check alerts, and answer. */
  datatype LogOutcome =
    | HttpError(status: nat, detail: string)
    | Logged(record: LogRecord, checksAlerts: bool, response: LogResponse)

  const OneHour: int := 3600
  /** Active alerts are read with `to_list(100)`. */
  const AlertFetchLimit: nat := 100

  /** `detected_bot and confidence > 0.5`: the condition under which alerts are checked. */
  predicate AlertGate(d: Detection) {
    Truthy(d.detectedBot) && d.confidence > 5
  }

  /** `find_one({"key": api_key, "is_active": True})` finds a document. */
  predicate ApiKeyAccepted(keys: seq<ApiKeyRecord>, key: string) {
    exists i :: 0 <= i < |keys| && keys[i].key == key && keys[i].isActive
  }

  /** `find_one({"domain": name, "is_verified": True})`: the first such domain, if any. */
  function FindVerifiedDomain(domains: seq<DomainRecord>, name: string): (r: Option<DomainRecord>)
    ensures r.Some? ==> r.value in domains && r.value.domain == name && r.value.isVerified
    ensures r.None? <==> forall i :: 0 <= i < |domains| ==> !(domains[i].domain == name && domains[i].isVerified)
  {
    if domains == [] then None
    else if domains[0].domain == name && domains[0].isVerified then Some(domains[0])
    else
      var r := FindVerifiedDomain(domains[1..], name);
      assert forall i :: 1 <= i < |domains| ==> domains[i] == domains[1..][i - 1];
      r
  }

  /**
   * `log_traffic`: the key check (401), the domain check (404), then the
   * stored log carries the classification, alerts are checked behind the
   * gate, and the answer reports whether a bot name was set.
   */
  function LogTraffic(req: TrafficLogCreate, keys: seq<ApiKeyRecord>, domains: seq<DomainRecord>,
                      logId: string, now: int): (r: LogOutcome)
    ensures (r.HttpError? && r.status == 401) <==> !ApiKeyAccepted(keys, req.apiKey)
    ensures r.HttpError? ==> r.status == 401 || r.status == 404
    ensures r.Logged? ==> && r.record.timestamp == now && r.record.ipAddress == req.ipAddress
                          && r.record.userAgent == req.userAgent
                          && (r.response.botDetected <==> r.record.detectedBot.Some?)
                          && (r.checksAlerts ==> r.response.botDetected && r.response.confidence > 5)
  {
    if !ApiKeyAccepted(keys, req.apiKey) then HttpError(401, "Invalid API key")
    else match FindVerifiedDomain(domains, req.domain)
      case None => HttpError(404, "Domain not found or not verified")
      case Some(domain) =>
        var d := Classify(req.userAgent, req.ipAddress);
        var record := LogRecord(logId, domain.id, domain.userId, req.ipAddress, req.userAgent,
                                d.detectedBot, d.botProvider, d.confidence, d.riskLevel,
                                req.requestPath, req.requestMethod, now);
        Logged(record, AlertGate(d), LogResponse(d.detectedBot.Some?, d.confidence))
  }

  /** Whether a stored log counts as a recent bot detection for this user and domain. */
  predicate IsRecentBot(l: LogRecord, userId: string, domainId: string, now: int) {
    l.userId == userId && l.domainId == domainId && l.detectedBot.Some? && l.timestamp >= now - OneHour
  }

  /** `count_documents` for the last hour's bot detections (`detected_bot` not None). */
  function RecentBotCount(logs: seq<LogRecord>, userId: string, domainId: string, now: int): (r: nat)
    ensures r <= |logs|
  {
    if logs == [] then 0
    else RecentBotCount(logs[..|logs| - 1], userId, domainId, now)
         + (if IsRecentBot(logs[|logs| - 1], userId, domainId, now) then 1 else 0)
  }

  /** The active alerts of the user, in collection order. */
  function AlertsOf(alerts: seq<AlertRecord>, userId: string): (r: seq<AlertRecord>)
    ensures forall a :: a in r <==> a in alerts && a.userId == userId && a.isActive
  {
    if alerts == [] then []
    else
      var last := alerts[|alerts| - 1];
      assert alerts == alerts[..|alerts| - 1] + [last];
      AlertsOf(alerts[..|alerts| - 1], userId) + (if last.userId == userId && last.isActive then [last] else [])
  }

  /** `find({"user_id": user_id, "is_active": True}).to_list(100)`. */
  function ActiveAlerts(alerts: seq<AlertRecord>, userId: string): (r: seq<AlertRecord>)
    ensures |r| <= AlertFetchLimit
    ensures forall a :: a in r ==> a in alerts && a.userId == userId && a.isActive
  {
    Take(AlertsOf(alerts, userId), AlertFetchLimit)
  }

  /** The alerts, in order, whose threshold the recent count reaches. */
  function Firing(recentBots: nat, alerts: seq<AlertRecord>): seq<AlertRecord> {
    if alerts == [] then []
    else
      var last := alerts[|alerts| - 1];
      Firing(recentBots, alerts[..|alerts| - 1]) + (if recentBots >= last.threshold then [last] else [])
  }

  /**
   * `check_and_send_alerts`: counts the recent detections, reads the active
   * alerts and sends (here: returns) every one whose threshold is reached.
   */
  method CheckAndSendAlerts(userId: string, domainId: string, logs: seq<LogRecord>,
                            alerts: seq<AlertRecord>, now: int) returns (sent: seq<AlertRecord>)
    ensures sent == Firing(RecentBotCount(logs, userId, domainId, now), ActiveAlerts(alerts, userId))
  {
    var recentBots := RecentBotCount(logs, userId, domainId, now);
    var active := ActiveAlerts(alerts, userId);
    sent := [];
    for i := 0 to |active|
      invariant sent == Firing(recentBots, active[..i])
    {
      assert active[..i + 1][..i] == active[..i];
      if recentBots >= active[i].threshold {
        sent := sent + [active[i]];
      }
    }
    assert active[..|active|] == active;
  }

  // ---------------------------------------------------------------------
  // Properties.

  /** An alert fires exactly when it is in the list and its threshold is at most the recent count. */
  lemma {:induction false} FiringIff(recentBots: nat, alerts: seq<AlertRecord>)
    ensures forall a :: a in Firing(recentBots, alerts) <==> a in alerts && a.threshold <= recentBots
  {
    if alerts != [] {
      var init := alerts[..|alerts| - 1];
      FiringIff(recentBots, init);
      assert alerts == init + [alerts[|alerts| - 1]];
    }
  }

  /** Which alerts `check_and_send_alerts` sends: the user's active ones (among the first hundred) whose threshold is reached. */
  lemma SentAlerts(userId: string, domainId: string, logs: seq<LogRecord>, alerts: seq<AlertRecord>, now: int)
    ensures var sent := Firing(RecentBotCount(logs, userId, domainId, now), ActiveAlerts(alerts, userId));
            && |sent| <= AlertFetchLimit
            && forall a :: a in sent <==> a in ActiveAlerts(alerts, userId)
                                          && a.threshold <= RecentBotCount(logs, userId, domainId, now)
    ensures forall a :: a in ActiveAlerts(alerts, userId) ==> a in alerts && a.userId == userId && a.isActive
  {
    var count := RecentBotCount(logs, userId, domainId, now);
    var active := ActiveAlerts(alerts, userId);
    FiringIff(count, active);
    FiringLength(count, active);
    forall a | a in active ensures a in AlertsOf(alerts, userId) {
      var k :| 0 <= k < |active| && active[k] == a;
    }
  }

  lemma {:induction false} FiringLength(recentBots: nat, alerts: seq<AlertRecord>)
    ensures |Firing(recentBots, alerts)| <= |alerts|
  {
    if alerts != [] {
      FiringLength(recentBots, alerts[..|alerts| - 1]);
    }
  }

  /** More recent detections never silence an alert that already fires. */
  lemma FiringMonotone(fewer: nat, more: nat, alerts: seq<AlertRecord>)
    requires fewer <= more
    ensures forall a :: a in Firing(fewer, alerts) ==> a in Firing(more, alerts)
  {
    FiringIff(fewer, alerts);
    FiringIff(more, alerts);
  }

  /**
   * Alerts are checked exactly for signature and IP-prefix detections: a
   * headless-only detection (confidence 0.5) never passes the gate.
   */
  lemma AlertGateIff(userAgent: string, ip: string)
    ensures AlertGate(Classify(userAgent, ip)) <==> FirstSignature(Lower(userAgent)).Some? || HasAiIpPrefix(ip)
  {
    if FirstSignature(Lower(userAgent)).Some? {
      SignatureNamesNonEmpty();
    }
  }

  /** A key that is unknown or inactive is refused with 401 before the domain is looked up. */
  lemma BadKeyRejected(req: TrafficLogCreate, keys: seq<ApiKeyRecord>, domains: seq<DomainRecord>, logId: string, now: int)
    requires forall i :: 0 <= i < |keys| ==> keys[i].key != req.apiKey || !keys[i].isActive
    ensures LogTraffic(req, keys, domains, logId, now) == HttpError(401, "Invalid API key")
  {
  }

  /** With a valid key, a domain that is missing or unverified is refused with 404. */
  lemma UnverifiedDomainRejected(req: TrafficLogCreate, keys: seq<ApiKeyRecord>, domains: seq<DomainRecord>,
                                 logId: string, now: int)
    requires ApiKeyAccepted(keys, req.apiKey)
    requires forall i :: 0 <= i < |domains| ==> domains[i].domain != req.domain || !domains[i].isVerified
    ensures LogTraffic(req, keys, domains, logId, now) == HttpError(404, "Domain not found or not verified")
  {
  }

  /**
   * A stored log carries the classification of its user agent and address
   * and the owner of a verified domain of that name; the answer reports a
   * bot exactly when a bot name was set; alerts are checked exactly behind
   * the gate.
   */
  lemma LoggedRecordsDetection(req: TrafficLogCreate, keys: seq<ApiKeyRecord>, domains: seq<DomainRecord>,
                               logId: string, now: int)
    requires LogTraffic(req, keys, domains, logId, now).Logged?
    ensures var o := LogTraffic(req, keys, domains, logId, now);
            var d := Classify(req.userAgent, req.ipAddress);
            && ApiKeyAccepted(keys, req.apiKey)
            && (exists dom :: dom in domains && dom.domain == req.domain && dom.isVerified
                              && dom.id == o.record.domainId && dom.userId == o.record.userId)
            && o.record.detectedBot == d.detectedBot && o.record.botProvider == d.botProvider
            && o.record.confidence == d.confidence && o.record.riskLevel == d.riskLevel
            && o.record.timestamp == now
            && (o.response.botDetected <==> o.record.detectedBot.Some?)
            && o.response.confidence == o.record.confidence
            && (o.checksAlerts <==> AlertGate(d))
  {
    var dom := FindVerifiedDomain(domains, req.domain).value;
    assert dom in domains;
  }

  /**
   * `log_traffic` stores its log before it checks alerts, so a detection
   * logged now counts towards the recent count of its own user and domain.
   */
  lemma NewDetectionCounts(logs: seq<LogRecord>, record: LogRecord, now: int)
    requires record.detectedBot.Some? && record.timestamp == now
    ensures RecentBotCount(logs + [record], record.userId, record.domainId, now)
         == RecentBotCount(logs, record.userId, record.domainId, now) + 1
  {
    assert (logs + [record])[..|logs|] == logs;
  }
}
