# ai-tracker in Dafny

ai-tracker is a service that lets site owners see which AI crawlers visit their
pages. A small script on each page posts every page view to the backend
(`POST /traffic/log`). The backend classifies the visitor from its user agent
and address, stores a traffic log, and sends the owner's alerts when too many
AI crawlers came in the last hour. A React dashboard shows the statistics and
manages domains, API keys, alerts and a blog.

This project models the logic of that system and proves what it promises:

- **Bot classifier** (`BotDetection`). `detect_bot` is written as the
  imperative cascade the backend runs. That is the signature loop with its
  `break`, the IP-prefix loop and the headless check. It is proved equal to a
  case-by-case specification, `Classify`. The user agents of the backend's
  integration test are classified as the test expects.
- **Ingestion and alerting** (`Alerting`):
  - the key check (401) and the verified-domain check (404) of `log_traffic`;
  - the stored record and the response;
  - the alert gate `detected_bot and confidence > 0.5`;
  - the alert loop of `check_and_send_alerts`, proved against a specification
    of which alerts fire.
- **Statistics** (`TrafficStats`). `get_traffic_stats` covers the totals, the
  distinct addresses, `Counter` (modelled as a tally kept in order of first
  occurrence), `most_common(10)`, the risk histogram and the ten latest logs.
  Python's stable `sorted(..., reverse=True)` is modelled as an insertion
  sort.
- **Domain verification** (`DomainVerification`). `verify_domain`:
  - ownership lookup (404);
  - the early return for a verified domain;
  - DNS TXT before the `/.well-known` file;
  - the update of the first domain with that id.
- **Session store and routing** (`Session`, `Json`, `Navigation`, `LoginPage`).
  `localStorage` is a class holding a map. The profile is stored as the
  compact text `JSON.stringify` writes, and reading it back is proved to
  restore the profile. The module also covers `PrivateRoute`, the route
  table, the menu, logout and login. Routes match as react-router's do by
  default: the case of letters and trailing slashes are ignored.
- **Tag input** (`TagInput`). The editor is a class with the tag list and the
  typed text. Every add and remove keeps the list free of duplicates.
- **Text truncation** (`Slugify`). `truncateText` is modelled over JavaScript's
  `substring` and `trim`.
- **Pages.** Each page is a class holding its React state. Each handler is a
  method that takes the replies of the requests it sends as parameters and
  returns three things: the requests it issued, the toasts (or `alert`s) it
  raised, and where it navigates. The effects that fire on a change of state
  are folded into the handler that makes the change.

The model keeps several behaviours of the code that a reader might not
expect. Each is stated in a contract:

- Verifying a domain that is already verified gets an answer with no
  `method` field. The page therefore shows "Domain verified via undefined!"
  (`DomainsPage.AlreadyVerifiedFeedback`).
- On the dashboard, a user with no domains never fetches statistics, so
  `loading` keeps its initial `true` (`DashboardPage.DashboardView.FetchDomains`,
  `DashboardPage.SelectionKept`).
- Submitting a search on the public blog list fetches the old page first. Its
  closure still holds that page. Only then does the effect fetch page 1
  (`BlogListPage.BlogListView.HandleSearch`).
- The traffic log page fetches the logs twice on mount
  (`TrafficLogsPage.TrafficLogsView.Mount`).
- A headless-browser detection (confidence 0.5) never reaches the alert check
  (`Alerting.AlertGateIff`).
- The alert threshold field turns both 0 and unparsable text into 1. A
  negative number passes through and is then refused
  (`AlertsPage.ThresholdNeverZero`).
- The password length check counts UTF-16 code units (`RegisterPage.LengthBounds`).

Confidence scores are integer tenths (0, 5, 6, 9). Timestamps are integers:
the backend stores ISO strings of one fixed format, which order the same way.
Database reads and the clock are parameters. A DNS lookup or HTTP fetch that
raised is `None`.

## Model

| member | source | states |
|---|---|---|
| BotDetection.DetectBot | backend/server.py:239-274 | The loops and reassignments of `detect_bot` compute exactly the cascade `Classify`: first signature, else IP prefix, else headless keyword, else nothing |
| BotDetection.Classify | backend/server.py:239-274 | Nothing detected is exactly the undetected record. A provider is named iff confidence is 0.9, and any detection has confidence at least 0.5 |
| BotDetection.Fallback | backend/server.py:257-274 | Without a signature no provider is named and confidence stays below 0.9 |
| BotDetection.ScanSignatures | backend/server.py:249-255 | The signature loop stops at the first table entry whose lower-cased name occurs in the lower-cased user agent |
| BotDetection.AnyAiIpPrefix | backend/server.py:257-264 | The IP loop finds a listed prefix exactly when some entry of AI_IP_RANGES is a string prefix of the address |
| BotDetection.AnyHeadlessIndicator | backend/server.py:266-272 | The `any(...)` over the headless keywords is true exactly when one of them occurs in the lower-cased user agent |
| BotDetection.FirstMatchFrom | backend/server.py:249-255 | A reported index matches, and no entry before it in table order matches |
| BotDetection.SignatureMatches | backend/server.py:250 | `bot_name.lower() in user_agent_lower`. ScanSignatures and FirstMatchFrom state which entry wins |
| BotDetection.FirstSignature | backend/server.py:249-255 | The first matching entry of AI_BOT_SIGNATURES, as FirstMatchFrom states from index 0. SignatureWins gives its result |
| BotDetection.HasAiIpPrefix | backend/server.py:258-264 | Some AI_IP_RANGES entry is a string prefix of the address. AnyAiIpPrefix computes it, and IpPrefixRule gives its result |
| BotDetection.HasHeadlessIndicator | backend/server.py:267-268 | Some headless keyword occurs in the lower-cased agent. AnyHeadlessIndicator computes it, and HeadlessRule gives its result |
| BotDetection.SignatureWins | backend/server.py:246-255 | When entry k matches and no earlier one does, the result is that entry's name and provider, confidence 0.9 and its risk, whatever the address |
| BotDetection.IpPrefixRule | backend/server.py:257-264 | With no signature, a listed string prefix of the address gives "Suspicious AI IP", no provider, 0.6, "medium" |
| BotDetection.HeadlessRule | backend/server.py:266-272 | A headless keyword counts only when neither a signature nor a prefix matched, and then gives "Headless Browser", no provider, 0.5, "medium" |
| BotDetection.NoMatchRule | backend/server.py:241-244 | With nothing matched the result is (None, None, 0.0, "unknown") |
| BotDetection.DetectionShape | backend/server.py:239-274 | The bot name is missing iff the confidence is 0. A provider is set iff a signature matched. The confidence is one of 0, 0.5, 0.6, 0.9. A reported name is never empty |
| BotDetection.PlainBrowserUndetected | backend_test.py:268-273 | The desktop browser user agent sent from 192.168.1.100 is classified as not a bot |
| BotDetection.PlainBrowserNoSignature | backend_test.py:271 | No signature of the table occurs in the desktop browser user agent |
| BotDetection.PlainBrowserNotHeadless | backend_test.py:271 | No headless keyword occurs in the desktop browser user agent |
| BotDetection.TestIpHasNoAiPrefix | backend_test.py:295 | The test address 192.168.1.100 starts with no listed prefix |
| BotDetection.GptBotDetected | backend_test.py:274-278 | The GPTBot user agent is reported as GPTBot by OpenAI, high risk, confidence 0.9 |
| BotDetection.ClaudeBotDetected | backend_test.py:279-283 | The ClaudeBot user agent is classified as exactly (ClaudeBot, Anthropic, confidence 0.9, high risk) |
| BotDetection.ClaudeBotUaNoEarlierSignature | backend/server.py:249-255 | None of the three signatures listed before ClaudeBot occurs in the ClaudeBot user agent |
| BotDetection.ClaudeBotUaNotClaudeWeb | backend/server.py:249-255 | The ClaudeBot user agent does not contain "claude-web" |
| PageKit.ErrorMessage | frontend/src/pages/Login.js:28 | `error.response?.data?.detail \|\| fallback`: the server's detail when it is a non-empty string, otherwise the fallback |
| PageKit.RiskTone | frontend/src/pages/Dashboard.js:57-64 | high, medium, low, and gray for any other level. GrayIffUndetected, RiskColors and RiskBadge state it |
| PageKit.SignatureRisksKnown | backend/server.py:41-61 | Every entry of AI_BOT_SIGNATURES has risk "high", "medium" or "low" |
| PageKit.GrayIffUndetected | frontend/src/pages/Dashboard.js:57-64 | A stored classification gets the gray risk colour exactly when no bot was detected |
| Alerting.ApiKeyAccepted | backend/server.py:444-446 | Some stored key equals the sent key and is active. LogTraffic answers 401 exactly when it fails, and BadKeyRejected states the answer |
| Alerting.AlertGate | backend/server.py:478 | `detected_bot and confidence > 0.5`. AlertGateIff: it holds iff a signature or an AI IP prefix matched |
| Alerting.FindVerifiedDomain | backend/server.py:449-451 | A found domain has the requested name and is verified. None is returned iff no domain has both |
| Alerting.LogTraffic | backend/server.py:441-481 | 401 iff the key is not an active key, else only 404 as an error. A stored log carries now, the sender's address and user agent; the answer flags a bot iff a name was stored, and alerts are checked only for a detection above 0.5 |
| Alerting.AlertsOf | backend/server.py:495 | An alert is listed iff it belongs to the user and is active |
| Alerting.IsRecentBot | backend/server.py:486-492 | The `count_documents` filter: same user and domain, a detected bot, a timestamp within the last hour. NewDetectionCounts shows that a detection stored now passes it |
| Alerting.RecentBotCount | backend/server.py:487-492 | Never more than the number of logs. NewDetectionCounts: a detection logged now adds exactly one |
| Alerting.ActiveAlerts | backend/server.py:495 | At most 100 alerts, each taken from the input, belonging to the user and active |
| Alerting.Firing | backend/server.py:497-498 | The alerts, in order, whose threshold the count reaches. FiringIff, FiringLength and FiringMonotone state it |
| Alerting.CheckAndSendAlerts | backend/server.py:483-500 | The loop over the active alerts sends exactly `Firing` of the last hour's bot count over the first hundred active alerts, in order |
| Alerting.FiringIff | backend/server.py:497-500 | An alert fires iff it is in the list and its threshold is at most the recent bot count |
| Alerting.SentAlerts | backend/server.py:483-500 | At most 100 alerts are sent. Each is an active alert of the user whose threshold the recent count reaches, and every such alert among the first hundred is sent |
| Alerting.FiringLength | backend/server.py:497-500 | No more alerts fire than were read |
| Alerting.FiringMonotone | backend/server.py:497-500 | More recent detections never silence an alert that already fires |
| Alerting.AlertGateIff | backend/server.py:478-479 | Alerts are checked iff a signature or an AI IP prefix matched; a headless-only detection never passes the gate |
| Alerting.BadKeyRejected | backend/server.py:444-446 | An unknown or inactive API key is refused with 401 "Invalid API key", whatever the domains |
| Alerting.UnverifiedDomainRejected | backend/server.py:449-451 | With a valid key, a missing or unverified domain is refused with 404 |
| Alerting.LoggedRecordsDetection | backend/server.py:441-481 | A stored log has: an accepted key, the id and owner of a verified domain of the requested name, the classification of its user agent and address, and the current time. `bot_detected` holds iff a bot name was set. Alerts are checked exactly behind the gate |
| Alerting.NewDetectionCounts | backend/server.py:473-492 | The log is stored before alerts are checked, so a detection logged now adds one to its own user's and domain's recent count |
| TrafficStats.Take | backend/server.py:549 | Python `s[:n]`: the first min(n, len) elements |
| TrafficStats.Bump | backend/server.py:541-546 | One `counter[x] += 1`: x's count grows by one, or (x, 1) is appended. Other entries keep their key and count, and the total grows by one |
| TrafficStats.Tally | backend/server.py:545-546 | `Counter(s)` holds distinct keys, exactly the elements of s, each with its number of occurrences, summing to len(s) |
| TrafficStats.IsTally | backend/server.py:545-546 | What a Counter holds: distinct keys, exactly the elements seen, each with its exact count, summing to the length. Tally and RiskDistribution promise it |
| TrafficStats.TallyStep | backend/server.py:541-546 | Counting one more element keeps the tally exact |
| TrafficStats.TallyStepKeys | backend/server.py:541-546 | After counting x the keys stay distinct and are exactly the elements seen |
| TrafficStats.TallyStepCounts | backend/server.py:541-546 | After counting x every entry's count is its number of occurrences, at least one |
| TrafficStats.BumpKeys | backend/server.py:541-546 | Counting x keeps the keys, adding x at the end when it is new |
| TrafficStats.InsertDesc | backend/server.py:549 | Inserting keeps the multiset of elements plus the new one, and keeps a descending list descending |
| TrafficStats.SortDesc | backend/server.py:549 | `sorted(..., reverse=True)` returns a permutation of its input in non-increasing key order; `SortDescStable` proves it stable |
| TrafficStats.SortedDesc | backend/server.py:549 | Non-increasing key order, as `reverse=True` gives. SortDesc, MostCommon and RecentActivity promise it |
| TrafficStats.InsertDescRun | backend/server.py:549 | Inserting keeps, among the elements of each key, the new one first and the rest in their order |
| TrafficStats.SortDescStable | backend/server.py:549 | The sort is stable: the elements of each key come out in their input order |
| TrafficStats.MostCommon | backend/server.py:541-542 | `most_common(n)` returns min(n, size) entries of the Counter in non-increasing count order |
| TrafficStats.CountKey | backend/server.py:542 | The key `most_common` sorts by: an entry's count |
| TrafficStats.TakeSortedIsTop | backend/server.py:541-542 | The first n of the descending sort are in order and drawn from the input, and nothing left out has a larger key than anything kept |
| TrafficStats.MostCommonEntriesExact | backend/server.py:541-542 | Every entry `most_common` returns is an element that was seen, with its exact count, at least one |
| TrafficStats.BotNamesCount | backend/server.py:537-541 | Each bot-flagged log contributes exactly one name to the bot Counter, so the names number `bot_requests` |
| TrafficStats.BotNames | backend/server.py:541 | The generator fed to the bot Counter. BotNamesCount: one name per bot-flagged log, as many as `bot_requests` |
| TrafficStats.IpAddresses | backend/server.py:538 | The set of addresses. UniqueIpsBound: no larger than the number of logs, and empty iff there are none |
| TrafficStats.RiskLevels | backend/server.py:545 | One risk level per log, in log order, each the log's own level |
| TrafficStats.TimestampKey | backend/server.py:549 | The sort key of `recent_activity`. RecentActivityIsLatest states the order it gives |
| TrafficStats.ToBotCounts | backend/server.py:542 | One {name, count} entry per Counter pair, in order, with the same name and count |
| TrafficStats.CountBotRequests | backend/server.py:537 | At most one bot request per log |
| TrafficStats.TopBots | backend/server.py:541-542 | At most ten bots, in non-increasing count order |
| TrafficStats.RiskDistribution | backend/server.py:545-546 | A Counter of the risk levels: distinct levels, each with its exact count, summing to the number of logs |
| TrafficStats.RecentActivity | backend/server.py:549 | min(10, n) logs drawn from the input, newest first |
| TrafficStats.GetTrafficStats | backend/server.py:520-562 | The total is the fetched count, capped at 10000; bot requests and distinct addresses never exceed it; at most ten top bots and ten recent logs |
| TrafficStats.UniqueIpsBound | backend/server.py:538 | There are never more distinct addresses than logs, and none only when there are no logs |
| TrafficStats.TotalsBounded | backend/server.py:534-538 | `total_requests` is the fetched count, capped at 10000. `bot_requests` and `unique_ips` never exceed it, and `unique_ips` is 0 iff there are no requests |
| TrafficStats.RiskDistributionExact | backend/server.py:545-546 | The risk histogram has one entry per level seen with its exact count, and the counts sum to `total_requests` |
| TrafficStats.TopBotsOrdered | backend/server.py:541-542 | `top_bots` has at most ten entries, in non-increasing count order |
| TrafficStats.TopBotsExact | backend/server.py:541-542 | Each entry of `top_bots` is a bot that was seen, with its exact count, at least one |
| TrafficStats.TopBotsAreLargest | backend/server.py:541-542 | No bot left out of `top_bots` was seen more often than any bot listed |
| TrafficStats.RecentActivityIsLatest | backend/server.py:549 | `recent_activity` holds min(10, n) of the fetched logs, newest first, and no log left out is newer than one kept |
| DomainVerification.VerificationString | backend/server.py:369 | The searched string is "aibot-detect=" followed by exactly the token |
| DomainVerification.FileUrl | backend/server.py:388 | FileUrlShape: https://, the domain, then /.well-known/aibot-detect.txt |
| DomainVerification.DnsProves | backend/server.py:366-373 | Some TXT string contains the verification string. VerifyOutcome answers DNS iff it holds, and PublishedRecordProves shows that the record the page offers satisfies it |
| DomainVerification.FileProves | backend/server.py:387-390 | Status 200 and a body containing the token. VerifyOutcome answers FILE iff it holds and DNS did not, and PublishedFileProves shows the token file satisfies it |
| DomainVerification.FindOwned | backend/server.py:358-360 | A found index is a domain with that id owned by the user. None, the 404, iff there is none |
| DomainVerification.MarkVerified | backend/server.py:375-381 | The update keeps the number of domains |
| DomainVerification.VerifyDomain | backend/server.py:356-402 | The domain list keeps its length and is written only when a proof succeeded, by DNS or by file. 404 iff the user owns no domain with that id |
| DomainVerification.MarkVerifiedOnly | backend/server.py:391-397 | `update_one` by id changes only the first domain with that id, and only its `is_verified` and `verified_at` |
| DomainVerification.AlreadyVerifiedIsNoOp | backend/server.py:362-363 | An owned, already verified domain answers "already verified" and writes nothing, whatever DNS and the file say |
| DomainVerification.FindOwnedFirst | backend/server.py:358 | `find_one` returns the first owned domain with that id |
| DomainVerification.VerifyOutcome | backend/server.py:365-402 | For an owned unverified domain, the answer is: DNS iff a TXT string holds the record; else FILE iff the file answered 200 with a body containing the token; else not verified. Verification marks only that domain, at `now`; a failure writes nothing |
| DomainVerification.PublishedRecordProves | frontend/src/pages/Domains.js:187-192 | Publishing the TXT record the page shows proves ownership by DNS |
| DomainVerification.PublishedFileProves | backend/server.py:390 | A file served with status 200 whose body is the token proves ownership |
| DomainVerification.FileUrlShape | backend/server.py:388 | The file is fetched from https://, the domain, then /.well-known/aibot-detect.txt |
| Session.LocalStorage.constructor | frontend/src/App.js:18-26 | The store starts empty |
| Session.LocalStorage.GetItem | frontend/src/App.js:18 | `getItem` returns the stored value, or null for an absent key |
| Session.LocalStorage.SetItem | frontend/src/App.js:19 | `setItem` writes one key and leaves the others |
| Session.LocalStorage.RemoveItem | frontend/src/App.js:20 | `removeItem` deletes one key and leaves the others |
| Session.Lookup | frontend/src/App.js:18 | A value is found iff the key is stored, and it is the stored value |
| Session.GetAuthToken | frontend/src/App.js:18 | Reads the value under "token" |
| Session.SetAuthToken | frontend/src/App.js:19 | Writes the token under "token" only |
| Session.RemoveAuthToken | frontend/src/App.js:20 | Removes "token" only |
| Session.GetUser | frontend/src/App.js:21-24 | Null for a missing or empty entry, otherwise the parsed profile, or the parse error JSON.parse throws |
| Session.SetUser | frontend/src/App.js:25 | Writes `JSON.stringify(user)` under "user" only |
| Session.RemoveUser | frontend/src/App.js:26 | Removes "user" only |
| Session.StoredToken | frontend/src/App.js:18 | The token read is present iff the "token" key is stored, and is its value |
| Session.StoredUser | frontend/src/App.js:21-24 | A missing or empty "user" entry reads as no user; a profile read is what the stored text parses to; a parse failure is the exception |
| Session.DropTrailingSlashes | frontend/src/App.js:36-37 | Drops exactly the slashes the text ends with and keeps the rest as a prefix |
| Session.RouteKey | frontend/src/App.js:36-37 | The route key of a pathname is never empty |
| Session.PublicPage | frontend/src/App.js:38-40 | A page iff the key is /, /login or /register |
| Session.GuardedPage | frontend/src/App.js:41-88 | A page iff the key is one of the six dashboard routes |
| Session.Resolve | frontend/src/App.js:36-88 | A redirect goes only to /login, for a guarded route without a truthy token. A page shown without a token is a public one. Nothing matches iff the key is none of the nine routes |
| Session.PrivateRoute | frontend/src/App.js:28-31 | Shows the page iff the token is truthy, with no validity check, and otherwise redirects to /login |
| Session.TokenRoundTrip | frontend/src/App.js:18-20 | `getAuthToken` returns the token last set, and null once it is removed |
| Session.UserRoundTrip | frontend/src/App.js:21-26 | `getUser` returns the profile last set, and null once it is removed |
| Session.KeysIndependent | frontend/src/App.js:18-26 | Writing or removing the token leaves the user as it was, and the other way round |
| Session.GuardedRoutes | frontend/src/App.js:41-88 | The six dashboard routes are guarded, matched by route key: letters in any case, any trailing slashes. Without a truthy token they redirect to /login; with any truthy token they show their page |
| Session.PublicRoutes | frontend/src/App.js:36-40 | /, /login and /register, in any case and with any trailing slashes, show their page with or without a token. A pathname whose route key is none of the nine routes matches nothing |
| Session.CanonicalIsKey | frontend/src/App.js:36-37 | A non-empty path without capital letters or a trailing slash is its own route key |
| Session.RouteKeyNormalizes | frontend/src/App.js:36-37 | A trailing slash and the case of letters do not change the route key, and a lower-case path without a trailing slash is its own key |
| Session.RoutePathsAreKeys | frontend/src/App.js:38-88 | Each of the nine route paths as written is its own key |
| Session.DashboardKeyResolves | frontend/src/App.js:41-48 | Any pathname whose key is /dashboard opens the dashboard behind `PrivateRoute` |
| Session.CapitalizedSlashedDashboard | frontend/src/App.js:41-48 | "/Dashboard/" has the key /dashboard and resolves as /dashboard does |
| Json.StringifyRoundTrip | frontend/src/App.js:21-25 | `JSON.parse` of the stored `JSON.stringify(user)` restores every field of the profile |
| Json.Stringify | frontend/src/App.js:25 | The stored text is an object: it opens with { and closes with } |
| Json.Escape | frontend/src/App.js:25 | An escaped string is no shorter than the original and holds no raw control character |
| Json.EscapeChar | frontend/src/App.js:25 | Each character is written as at least one printable character |
| Json.ParseChars | frontend/src/App.js:23 | A string read leaves a strictly shorter rest, which is a suffix of the input |
| Json.ParseMember | frontend/src/App.js:23 | A member read starts with its key and leaves a strictly shorter suffix |
| Json.ParseBool | frontend/src/App.js:23 | A boolean read leaves a strictly shorter suffix |
| Json.ParseUser | frontend/src/App.js:23 | Only a text that opens with { is read as a profile |
| Json.StringifyInjective | frontend/src/App.js:25 | Different profiles are stored as different texts, and a stored profile is never the empty, falsy string |
| Json.EscapeRoundTrip | frontend/src/App.js:25 | An escaped string followed by its closing quote reads back as the string and what follows |
| Json.Expect | frontend/src/App.js:23 | A consumed literal is a prefix of the text, and the result is the rest |
| Navigation.BuildNavItems | frontend/src/components/Navigation.js:17-27 | The five base items in fixed order, then "/admin" last iff the cached user is a super administrator. A null user gets no admin item |
| Navigation.IsSuperAdmin | frontend/src/components/Navigation.js:25 | `user?.is_super_admin`: false without a cached user. BuildNavItems adds /admin iff it holds |
| Navigation.HandleLogout | frontend/src/components/Navigation.js:11-15 | Removes both the token and the user and nothing else, then goes to /login |
| Navigation.LogoutEndsSession | frontend/src/components/Navigation.js:11-15 | After logout no token or user is stored, and every guarded path redirects to /login |
| Navigation.AtMostOneActive | frontend/src/components/Navigation.js:47 | The menu paths are pairwise different, so at most one item is highlighted for any pathname |
| Navigation.IsActive | frontend/src/components/Navigation.js:47 | Highlighted iff the pathname is the item's path. AtMostOneActive: at most one item at a time |
| Navigation.MenuPathsGuarded | frontend/src/components/Navigation.js:17-27 | Every menu path is a route behind `PrivateRoute` |
| Navigation.FirstIndex | frontend/src/components/Navigation.js:43 | The index found holds the character and none before it does. None iff the character is absent |
| Navigation.ReplaceFirst | frontend/src/components/Navigation.js:43 | `replace(' ', '-')` changes only the first occurrence, and nothing when there is none |
| Navigation.TestIdOfWords | frontend/src/components/Navigation.js:43 | The test id is "nav-", the lower-cased first word, "-", then the lower-cased rest: "Traffic Logs" gives "nav-traffic-logs" |
| Navigation.TestId | frontend/src/components/Navigation.js:43 | TestIdOfWords and SecondSpaceKept: "nav-", then the lower-cased label with only its first space replaced |
| Navigation.SecondSpaceKept | frontend/src/components/Navigation.js:43 | A space after the first one stays a space: the replacement is not global |
| LoginPage.LoginForm.constructor | frontend/src/pages/Login.js:13-15 | Empty email and password, not loading |
| LoginPage.LoginForm.Submit | frontend/src/pages/Login.js:17-22 | Sets `loading` and posts the typed credentials |
| LoginPage.LoginForm.SubmitDisabled | frontend/src/pages/Login.js:87 | Disabled exactly while a login is in flight: Submit sets `loading`, Complete clears it |
| LoginPage.LoginForm.Complete | frontend/src/pages/Login.js:21-31 | Success stores the token, then the user, and goes to /dashboard. Failure stores nothing and shows the server's detail or "Login failed". `loading` ends false either way |
| LoginPage.LoginStartsSession | frontend/src/pages/Login.js:22-26 | After a login the reply's token and profile read back from the store, and with a non-empty token /dashboard opens |
| RegisterPage.RegisterForm.constructor | frontend/src/pages/Register.js:13-16 | Empty fields, not loading |
| RegisterPage.RegisterForm.HandleRegister | frontend/src/pages/Register.js:18-42 | A request carrying the typed email and password is sent iff both checks pass. A failed check shows its message only. Success goes to /login without storing a session; failure shows the server's detail |
| RegisterPage.RegisterChecks | frontend/src/pages/Register.js:21-29 | Sent iff the entries match and the password has at least 6 UTF-16 units. The mismatch is reported first |
| RegisterPage.RegisterError | frontend/src/pages/Register.js:21-29 | Accepted iff the passwords match and are at least 6 UTF-16 units long; a mismatch is reported first |
| RegisterPage.LengthBounds | frontend/src/pages/Register.js:26-29 | Six characters always pass the length check and two or fewer never do |
| AlertsPage.AlertsView.constructor | frontend/src/pages/Alerts.js:15-22 | No alerts, loading, dialog closed, form {email, "", 10} |
| AlertsPage.AlertsView.FetchAlerts | frontend/src/pages/Alerts.js:28-40 | The list is replaced on success, and a failure toasts and keeps it. `loading` ends false |
| AlertsPage.AlertsView.SetDestination | frontend/src/pages/Alerts.js:129 | Changes only the destination |
| AlertsPage.AlertsView.SetAlertType | frontend/src/pages/Alerts.js:107-109 | Changes only the alert type of the form |
| AlertsPage.AlertsView.SetDialogOpen | frontend/src/pages/Alerts.js:92-93 | Opens or closes the dialog and changes nothing else |
| AlertsPage.AlertsView.SetThresholdInput | frontend/src/pages/Alerts.js:141 | The threshold becomes `parseInt(text) \|\| 1` |
| AlertsPage.AlertsView.HandleCreateAlert | frontend/src/pages/Alerts.js:42-64 | A failed check sends nothing. A created alert resets the form, closes the dialog and refetches. A failed creation changes nothing |
| AlertsPage.AlertsView.HandleDeleteAlert | frontend/src/pages/Alerts.js:66-78 | A declined confirmation sends nothing, and the list is refetched only after a successful delete |
| AlertsPage.AlertFormChecks | frontend/src/pages/Alerts.js:43-51 | Sent iff the destination is not blank and the threshold is at least 1. The destination is checked first |
| AlertsPage.AlertFormError | frontend/src/pages/Alerts.js:43-51 | Accepted iff the destination is not blank and the threshold is at least 1; a blank destination is reported first |
| AlertsPage.ParseThreshold | frontend/src/pages/Alerts.js:141 | Never 0: NaN gives 1, any other non-zero number is kept |
| AlertsPage.AlertTypeUnchecked | frontend/src/pages/Alerts.js:43-51 | The alert type plays no part in the checks |
| AlertsPage.WhitespaceDestinationRejected | frontend/src/pages/Alerts.js:43-46 | A destination of only whitespace is refused |
| AlertsPage.ThresholdNeverZero | frontend/src/pages/Alerts.js:141 | The field never holds 0. It is below 1 iff the text parses to a negative number |
| AlertsPage.ThresholdFromNumber | frontend/src/pages/Alerts.js:141 | Typing an integer's decimal text gives that integer, except that 0 gives 1. A negative one is then refused |
| AlertsPage.InitialFormRefused | frontend/src/pages/Alerts.js:18-22 | The initial form has threshold 10 and is refused until a destination is typed |
| JsNumber.ParseIntText | frontend/src/pages/Alerts.js:141 | `parseInt` reads back the decimal text of every integer |
| JsNumber.ParseInt | frontend/src/pages/Alerts.js:141 | A blank text is NaN, and a negative result needs a leading minus after the whitespace |
| JsNumber.ParseMagnitude | frontend/src/pages/Alerts.js:141 | The unsigned part of `parseInt`: a "0x" or "0X" prefix switches to hexadecimal. ParseIntText reads back every decimal text |
| JsNumber.LeadingDigits | frontend/src/pages/Alerts.js:141 | The run of digits `parseInt` reads: every character in it is a digit, and the one after it is not |
| DomainsPage.DomainsView.constructor | frontend/src/pages/Domains.js:14-16 | No domains, loading, empty entry, dialog closed |
| DomainsPage.DomainsView.FetchDomains | frontend/src/pages/Domains.js:22-34 | The list is replaced on success, and a failure toasts and keeps it. `loading` ends false |
| DomainsPage.DomainsView.SetNewDomain | frontend/src/pages/Domains.js:124 | Changes only the typed domain |
| DomainsPage.DomainsView.SetDialogOpen | frontend/src/pages/Domains.js:148 | Opens or closes the dialog and changes nothing else |
| DomainsPage.DomainsView.HandleAddDomain | frontend/src/pages/Domains.js:36-55 | A blank entry sends nothing. Success clears the entry, closes the dialog and refetches. A failure shows the server's detail |
| DomainsPage.DomainsView.HandleVerifyDomain | frontend/src/pages/Domains.js:57-74 | Refetches only when the answer says verified, and shows the toast `VerifyFeedback` gives |
| DomainsPage.DomainsView.HandleDeleteDomain | frontend/src/pages/Domains.js:76-88 | A declined confirmation sends nothing, and the list is refetched only after a successful delete |
| DomainsPage.AddDomainChecks | frontend/src/pages/Domains.js:37-40 | A domain is sent iff the entry is not all whitespace |
| DomainsPage.AddDomainError | frontend/src/pages/Domains.js:37-40 | Refused iff the text is blank |
| DomainsPage.VerifyBody | backend/server.py:356-402 | Rejected iff the domain was not found. Otherwise `verified` is false only for a failed check, and `method` is present only for a proof |
| DomainsPage.VerifyFeedback | frontend/src/pages/Domains.js:57-74 | The list is refetched iff the reply says verified, and the toast is a success exactly then |
| DomainsPage.MethodText | frontend/src/pages/Domains.js:66 | The template text of `response.data.method`: the method, or "undefined" when it is absent. AlreadyVerifiedFeedback shows the toast that results |
| DomainsPage.ShowsVerification | frontend/src/pages/Domains.js:177-229 | The instructions and the Verify button are rendered only for an unverified domain |
| DomainsPage.DnsRecord | frontend/src/pages/Domains.js:187-192 | The record offered is the string the backend searches the TXT records for |
| DomainsPage.FileLocation | frontend/src/pages/Domains.js:203 | The address shown is the one the backend fetches |
| DomainsPage.RefetchIffVerified | frontend/src/pages/Domains.js:65-70 | Refetch and the success toast happen iff the reply says verified |
| DomainsPage.FeedbackFollowsBackend | frontend/src/pages/Domains.js:57-74 | Each `verify_domain` outcome gets its toast: "verified via" DNS/FILE, the backend's failure message, or "Verification failed" for the 404 |
| DomainsPage.AlreadyVerifiedFeedback | frontend/src/pages/Domains.js:65-67 | The backend's "already verified" answer has no method, and the page shows "Domain verified via undefined!" |
| DomainsPage.InstructionsMatchBackend | frontend/src/pages/Domains.js:187-203 | The TXT record shown is the string the backend searches for, and publishing it proves ownership. The file address shown is the one it fetches |
| ApiKeysPage.ApiKeysView.constructor | frontend/src/pages/ApiKeys.js:13-17 | No keys, loading, empty name, dialog and guide closed |
| ApiKeysPage.ApiKeysView.FetchApiKeys | frontend/src/pages/ApiKeys.js:23-35 | The list is replaced on success, and a failure toasts and keeps it. `loading` ends false |
| ApiKeysPage.ApiKeysView.SetNewKeyName | frontend/src/pages/ApiKeys.js:146 | Changes only the typed name |
| ApiKeysPage.ApiKeysView.SetDialogOpen | frontend/src/pages/ApiKeys.js:130 | Opens or closes the dialog and changes nothing else |
| ApiKeysPage.ApiKeysView.ToggleIntegration | frontend/src/pages/ApiKeys.js:123 | Flips the guide's visibility and touches nothing else |
| ApiKeysPage.ApiKeysView.HandleCreateKey | frontend/src/pages/ApiKeys.js:37-56 | A blank name sends nothing. Success clears the name, closes the dialog and refetches. A failure changes nothing |
| ApiKeysPage.ApiKeysView.HandleDeleteKey | frontend/src/pages/ApiKeys.js:58-70 | A declined confirmation sends nothing, and the list is refetched only after a successful delete |
| ApiKeysPage.KeyNameChecks | frontend/src/pages/ApiKeys.js:38-41 | A key is created iff the name is not all whitespace |
| ApiKeysPage.KeyNameError | frontend/src/pages/ApiKeys.js:38-41 | Refused iff the name is blank |
| ApiKeysPage.BackendUrl | frontend/src/pages/ApiKeys.js:79 | Never empty; a set, non-empty environment value is used as it is |
| ApiKeysPage.IntegrationCode | frontend/src/pages/ApiKeys.js:77-104 | The snippet contains the key's `const` line and the domain's `const` line |
| ApiKeysPage.DefaultAddress | frontend/src/pages/ApiKeys.js:79 | Without a configured backend the snippet posts to http://localhost:8000/api, and with one to that address |
| ApiKeysPage.SnippetEmbeds | frontend/src/pages/ApiKeys.js:77-104 | The snippet declares the given key, the given domain, and the backend address plus "/api", each on its own quoted `const` line |
| ApiKeysPage.GuidePlaceholders | frontend/src/pages/ApiKeys.js:170-173 | The guide shows the snippet with YOUR_API_KEY and YOUR_DOMAIN |
| DashboardPage.DashboardView.constructor | frontend/src/pages/Dashboard.js:10-13 | No statistics, loading, nothing selected, no domains |
| DashboardPage.DashboardView.FetchStats | frontend/src/pages/Dashboard.js:42-55 | Requests the statistics of the selection. They are replaced on success, and a failure toasts. `loading` ends false |
| DashboardPage.DashboardView.ChangeSelection | frontend/src/pages/Dashboard.js:25-29 | Statistics are fetched iff the selection changed to a truthy id, and for that id |
| DashboardPage.DashboardView.SelectDomain | frontend/src/pages/Dashboard.js:96 | The selector sets the selection, then the effect fetches its statistics when it changed |
| DashboardPage.DashboardView.FetchDomains | frontend/src/pages/Dashboard.js:31-40 | Success stores the list and selects the first domain when none is selected, then fetches statistics only if that changed the selection. With no domains `loading` stays as it was |
| DashboardPage.SelectionKept | frontend/src/pages/Dashboard.js:19-23 | A selection the user made survives every later list. The first domain is chosen only while nothing is selected. An empty list triggers no fetch |
| DashboardPage.DefaultSelection | frontend/src/pages/Dashboard.js:19-23 | A truthy selection is kept; the selection changes only to the first domain of a non-empty list |
| DashboardPage.StatsQuery | frontend/src/pages/Dashboard.js:45 | Empty iff no truthy selection, otherwise it carries the selected id |
| DashboardPage.StatsRefresh | frontend/src/pages/Dashboard.js:25-29 | The selection effect fires for a changed, truthy id. ChangeSelection and StatsAreFiltered state what it fetches |
| DashboardPage.DisplayedRate | frontend/src/pages/Dashboard.js:145-147 | 0 without statistics or requests, otherwise DetectionRate. DisplayedRateBounded and BackendRateBounded keep it within 0 to 100 |
| DashboardPage.DetectionRate | frontend/src/pages/Dashboard.js:145-147 | The rate is within one half of 100·bot/total, halves rounding up, and at most 100 when bot <= total |
| DashboardPage.StatsAreFiltered | frontend/src/pages/Dashboard.js:45 | Whenever statistics are fetched the query is `?domain_id=` and the selected id |
| DashboardPage.RateExtremes | frontend/src/pages/Dashboard.js:145-147 | No bots gives 0, and all bots give 100 |
| DashboardPage.DisplayedRateBounded | frontend/src/pages/Dashboard.js:145-147 | The rate card shows at most 100 for consistent statistics |
| DashboardPage.BackendRateBounded | frontend/src/pages/Dashboard.js:145-147 | For statistics `get_traffic_stats` computed the card shows 0 to 100, and 0 without statistics |
| DashboardPage.RiskColors | frontend/src/pages/Dashboard.js:57-64 | high is red, medium yellow and low green, each iff. Anything else is gray |
| DashboardPage.RiskColor | frontend/src/pages/Dashboard.js:57-64 | Gray iff the level is none of high, medium, low; red iff it is high |
| TrafficLogsPage.TrafficLogsView.constructor | frontend/src/pages/TrafficLogs.js:11-14 | No logs, no domains, "All Domains" selected, loading |
| TrafficLogsPage.TrafficLogsView.FetchLogs | frontend/src/pages/TrafficLogs.js:36-49 | Requests the logs of the selection. They are replaced on success, and a failure toasts. `loading` ends false |
| TrafficLogsPage.TrafficLogsView.Mount | frontend/src/pages/TrafficLogs.js:16-23 | Mounting requests the domains and then the same logs twice; the last successful reply wins |
| TrafficLogsPage.TrafficLogsView.SelectDomain | frontend/src/pages/TrafficLogs.js:137 | A changed selection refetches the logs for it, and an unchanged one sends nothing |
| TrafficLogsPage.TrafficLogsView.HandleExport | frontend/src/pages/TrafficLogs.js:51-83 | One export request for the selection and format. Success downloads the file named for the format and toasts the format; failure toasts "Export failed" |
| TrafficLogsPage.ExportMatchesList | frontend/src/pages/TrafficLogs.js:39-53 | The export query is the list's query with `format` as one more parameter. The list query is empty iff no domain is selected |
| TrafficLogsPage.LogsQuery | frontend/src/pages/TrafficLogs.js:39 | Empty iff all domains are selected, otherwise it ends with the domain id |
| TrafficLogsPage.ExportQuery | frontend/src/pages/TrafficLogs.js:53 | Starts with "?", ends with the format, and for one domain begins with the list query |
| TrafficLogsPage.ExportFormats | frontend/src/pages/TrafficLogs.js:56-73 | csv is requested as a blob and saved as traffic_logs.csv, iff. Every other format is JSON, saved as traffic_logs.json |
| TrafficLogsPage.ExportResponseType | frontend/src/pages/TrafficLogs.js:56 | ExportFormats: a blob iff the format is csv, JSON otherwise |
| TrafficLogsPage.ExportFileName | frontend/src/pages/TrafficLogs.js:58-73 | ExportFormats: traffic_logs.csv iff the format is csv, traffic_logs.json otherwise |
| TrafficLogsPage.ExportToastNamesFormat | frontend/src/pages/TrafficLogs.js:79 | The toast names the format upper-cased, letter for letter |
| TrafficLogsPage.GrayBadgeIffUndetected | frontend/src/pages/TrafficLogs.js:85-92 | A log gets the gray badge when nothing was detected, and the badge of its risk colour when a bot was |
| TrafficLogsPage.RiskBadge | frontend/src/pages/TrafficLogs.js:85-92 | The gray badge iff the level is none of high, medium, low |
| TrafficLogsPage.ColouredBadge | frontend/src/pages/TrafficLogs.js:87-89 | The red, yellow and green badges, none of them the gray one |
| Blogs.ShownDate | frontend/src/pages/blogs/BlogDetail.js:189 | `published_at` when it is set and non-empty, otherwise `created_at` |
| AdminBlogListPage.AdminBlogsView.constructor | frontend/src/pages/admin/BlogList.js:9-12 | No posts, loading, filter "all", empty search |
| AdminBlogListPage.AdminBlogsView.FetchBlogs | frontend/src/pages/admin/BlogList.js:21-38 | Requests with the current filter and search. The list is replaced on success. `loading` ends false |
| AdminBlogListPage.AdminBlogsView.SetFilter | frontend/src/pages/admin/BlogList.js:95-98 | A changed filter refetches with it, and an unchanged one sends nothing |
| AdminBlogListPage.AdminBlogsView.SetSearchTerm | frontend/src/pages/admin/BlogList.js:90 | Every changed keystroke refetches with the new text |
| AdminBlogListPage.AdminBlogsView.HandleDelete | frontend/src/pages/admin/BlogList.js:40-53 | Declined sends nothing. A failed delete raises an alert. A successful one refetches with the current parameters |
| AdminBlogListPage.ParamsIff | frontend/src/pages/admin/BlogList.js:24-26 | `status` is sent iff the filter is not "all", and `search` iff the text is non-empty, each with the value as is |
| AdminBlogListPage.AdminParams | frontend/src/pages/admin/BlogList.js:24-26 | `status` is sent, as the filter, iff the filter is not "all"; `search` iff the text is non-empty |
| AdminBlogListPage.TagsShown | frontend/src/pages/admin/BlogList.js:156-163 | The first two tags are shown, and a "+n" badge iff more were not |
| AdminBlogListPage.TagsCellCountsAll | frontend/src/pages/admin/BlogList.js:156-163 | The cell shows the first tags in order, at most two. "+n" appears iff some are hidden, and n reads back as their number |
| BlogListPage.BlogListView.constructor | frontend/src/pages/blogs/BlogList.js:10-15 | Page 1, no tag, no search, loading, no posts or tags |
| BlogListPage.BlogListView.Valid | frontend/src/pages/blogs/BlogList.js:175 | The page never drops below 1. The constructor and every handler keep it |
| BlogListPage.BlogListView.FetchBlogs | frontend/src/pages/blogs/BlogList.js:25-38 | Requests with the current page, tag and search. The list is replaced on success. `loading` ends false |
| BlogListPage.BlogListView.FetchTags | frontend/src/pages/blogs/BlogList.js:40-47 | The tag list is replaced on success and kept on failure |
| BlogListPage.BlogListView.Refresh | frontend/src/pages/blogs/BlogList.js:20-23 | The effect fetches the posts and then the tags for the current state |
| BlogListPage.BlogListView.Update | frontend/src/pages/blogs/BlogList.js:20-23 | A batch of state updates refetches both lists iff page, tag or search changed |
| BlogListPage.BlogListView.Mount | frontend/src/pages/blogs/BlogList.js:20-23 | Mounting fetches both lists once for the initial state |
| BlogListPage.BlogListView.SetSearchTerm | frontend/src/pages/blogs/BlogList.js:117 | A changed search text refetches posts and tags on the same page: each list becomes its successful reply or stays, and loading ends. An unchanged text sends nothing and changes no list |
| BlogListPage.BlogListView.SelectTag | frontend/src/pages/blogs/BlogList.js:140 | Choosing a tag returns to page 1. When tag or page changed, posts and tags are refetched, each replaced on success, and loading ends; otherwise nothing is sent and no list changes |
| BlogListPage.BlogListView.AllTags | frontend/src/pages/blogs/BlogList.js:127 | "All Tags" clears the tag and returns to page 1. When that changed anything, posts and tags are refetched, each replaced on success, and loading ends; otherwise nothing is sent and no list changes |
| BlogListPage.BlogListView.Previous | frontend/src/pages/blogs/BlogList.js:160-176 | Only beside a non-empty list and off page 1 does it step back one page, refetch posts and tags (each replaced on success) and end loading. Otherwise it sends nothing and changes nothing |
| BlogListPage.BlogListView.Next | frontend/src/pages/blogs/BlogList.js:160-184 | After a full page of nine posts it steps forward one page, refetches posts and tags (each replaced on success) and ends loading. Otherwise it sends nothing and changes nothing |
| BlogListPage.BlogListView.HandleSearch | frontend/src/pages/blogs/BlogList.js:49-53 | Returns to page 1 and ends loading. The first request still carries the old page. On page 1 its reply sets the posts. Otherwise the effect also fetches page 1 and the tags; the page-1 reply wins when it succeeds, else the stale one shows, and the tags follow their reply |
| BlogListPage.ParamsIff | frontend/src/pages/blogs/BlogList.js:27-29 | Every query carries the page and limit 9. `tag` is sent iff one is selected and `search` iff the text is non-empty |
| BlogListPage.BlogParams | frontend/src/pages/blogs/BlogList.js:27-29 | Nine posts of the given page; a tag iff one is selected and a search iff the text is non-empty, each as typed |
| BlogListPage.PreviousPage | frontend/src/pages/blogs/BlogList.js:175 | `Math.max(1, page - 1)`: never below 1, one less from page 2 on |
| BlogListPage.PreviousEnabled | frontend/src/pages/blogs/BlogList.js:160-176 | PaginationNeedsPosts: iff the list is non-empty and the page is not 1 |
| BlogListPage.NextEnabled | frontend/src/pages/blogs/BlogList.js:160-184 | NextOnFullPage: iff nine posts came back |
| BlogListPage.PaginationNeedsPosts | frontend/src/pages/blogs/BlogList.js:160-191 | Previous is enabled iff the list is non-empty and the page is not 1, and Next only beside a non-empty list |
| BlogListPage.PreviousStaysPositive | frontend/src/pages/blogs/BlogList.js:175-176 | `max(1, page - 1)` steps one page back and never goes below 1 |
| BlogListPage.NextOnFullPage | frontend/src/pages/blogs/BlogList.js:183-184 | Next is enabled iff the page came back with nine posts |
| BlogDetailPage.OtherPosts | frontend/src/pages/blogs/BlogDetail.js:34 | Keeps exactly the posts whose slug differs from the one on screen |
| BlogDetailPage.BlogDetailView.constructor | frontend/src/pages/blogs/BlogDetail.js:13-15 | No post, no related posts, loading |
| BlogDetailPage.BlogDetailView.Render | frontend/src/pages/blogs/BlogDetail.js:56-75 | The spinner iff loading. The not-found view iff loading ended without a post |
| BlogDetailPage.BlogDetailView.FetchBlog | frontend/src/pages/blogs/BlogDetail.js:24-41 | Related posts are requested only for a post with tags, by its first tag with limit 3. A failure keeps the previous post. `loading` ends false |
| BlogDetailPage.RelatedExcludesSelf | frontend/src/pages/blogs/BlogDetail.js:30-34 | At most three related posts, none of them the post on screen, in list order, and all of them when there are at most three others |
| BlogDetailPage.RelatedBlogs | frontend/src/pages/blogs/BlogDetail.js:30-34 | At most three posts, each from the tag's list and none of them this post |
| BlogDetailPage.MetaTitle | frontend/src/pages/blogs/BlogDetail.js:80 | The SEO title when it is set and non-empty, otherwise the title |
| BlogDetailPage.MetaDescription | frontend/src/pages/blogs/BlogDetail.js:81 | The SEO description when it is set and non-empty, otherwise the excerpt. MetaFallbacks states it |
| BlogDetailPage.MetaFallbacks | frontend/src/pages/blogs/BlogDetail.js:80-81 | The meta title is the SEO title or else the title, and the description is the SEO description or else the excerpt |
| BlogEditorPage.BlogEditorView.constructor | frontend/src/pages/admin/BlogEditor.js:11-29 | Edit mode follows the route id. The form starts as a draft with empty fields and lists, not loading or saving |
| BlogEditorPage.BlogEditorView.IsEdit | frontend/src/pages/admin/BlogEditor.js:11-13 | Edit mode iff the route carries an id. Mount, HandleSave and SaveTargets branch on it |
| BlogEditorPage.BlogEditorView.FetchBlog | frontend/src/pages/admin/BlogEditor.js:39-53 | The loaded post replaces the form, and a failure alerts and keeps it. `loading` ends false |
| BlogEditorPage.BlogEditorView.Mount | frontend/src/pages/admin/BlogEditor.js:33-37 | Only in edit mode is the post requested: the form becomes it on success, a failure alerts "Failed to load blog", and loading ends. A new post sends nothing and changes nothing. Saving is untouched |
| BlogEditorPage.BlogEditorView.HandleTitleChange | frontend/src/pages/admin/BlogEditor.js:55-63 | The form becomes `TitleChange` of the old form |
| BlogEditorPage.BlogEditorView.HandleEdit | frontend/src/pages/admin/BlogEditor.js:172-280 | Each other input sets its own field |
| BlogEditorPage.BlogEditorView.HandleSave | frontend/src/pages/admin/BlogEditor.js:65-98 | A missing title, content or excerpt alerts and sends nothing. Otherwise one PUT (edit) or POST (new) of the payload. Success alerts "published" or "saved" and returns to /admin/blogs |
| BlogEditorPage.TitleDrivesSlug | frontend/src/pages/admin/BlogEditor.js:55-63 | A title change sets the title, the generated slug and the SEO title, and nothing else. A slug typed by hand is lost at the next title change |
| BlogEditorPage.TitleChange | frontend/src/pages/admin/BlogEditor.js:55-63 | Title and SEO title become the typed title and the slug its generated slug; every other field is kept |
| BlogEditorPage.ApplyEdit | frontend/src/pages/admin/BlogEditor.js:172-280 | No edit of another input changes the title or the status |
| BlogEditorPage.SaveError | frontend/src/pages/admin/BlogEditor.js:66-69 | Refused iff the title, content or excerpt is empty |
| BlogEditorPage.SavePayload | frontend/src/pages/admin/BlogEditor.js:74-78 | The form with the chosen status and nothing else changed; a publication time iff publishing |
| BlogEditorPage.SaveRequest | frontend/src/pages/admin/BlogEditor.js:80-88 | A save sends the payload, as a PUT iff the route has an id, otherwise as a POST |
| BlogEditorPage.SavedMessage | frontend/src/pages/admin/BlogEditor.js:90 | "Blog published successfully!" for a published post, "Blog saved successfully!" otherwise. HandleSave shows it after a successful save |
| BlogEditorPage.EditTouchesOneField | frontend/src/pages/admin/BlogEditor.js:172-280 | Each edit changes only its own field |
| BlogEditorPage.SaveGuardIff | frontend/src/pages/admin/BlogEditor.js:66-69 | Saved iff title, content and excerpt are all non-empty. A title of spaces counts as filled in |
| BlogEditorPage.PayloadIff | frontend/src/pages/admin/BlogEditor.js:74-78 | The payload is the form with the chosen status. `published_at` is set, to now, iff the status is "published" |
| BlogEditorPage.SaveTargets | frontend/src/pages/admin/BlogEditor.js:80-88 | PUT under the post's own id iff in edit mode, otherwise POST of the same payload |
| SuperAdminPage.SuperAdminView.constructor | frontend/src/pages/SuperAdmin.js:14-20 | The cached profile, nothing fetched, nothing selected, loading |
| SuperAdminPage.SuperAdminView.Mount | frontend/src/pages/SuperAdmin.js:22-31 | Without a super administrator it raises the denial, goes to /dashboard and fetches nothing. Otherwise it fetches stats, users and domains, and `loading` ends false |
| SuperAdminPage.SuperAdminView.FetchAdminStats | frontend/src/pages/SuperAdmin.js:33-44 | Statistics are replaced on success, and `loading` clears whatever the outcome |
| SuperAdminPage.SuperAdminView.FetchAllUsers | frontend/src/pages/SuperAdmin.js:46-55 | Users are replaced on success, and `loading` is untouched |
| SuperAdminPage.SuperAdminView.FetchAllDomains | frontend/src/pages/SuperAdmin.js:57-66 | Domains are replaced on success, and `loading` is untouched |
| SuperAdminPage.SuperAdminView.FetchUserActivity | frontend/src/pages/SuperAdmin.js:68-78 | The activity and the selected user change together, and only on success |
| SuperAdminPage.GateFollowsSession | frontend/src/pages/SuperAdmin.js:22-27 | After `setUser(u)` the gate opens iff u is a super administrator. After logout it stays closed |
| SuperAdminPage.RiskTextAgrees | frontend/src/pages/SuperAdmin.js:316-320 | The ternary chain colours every risk level as the dashboard's switch does. Gray iff the level is none of high, medium, low |
| SuperAdminPage.RiskText | frontend/src/pages/SuperAdmin.js:316-320 | RiskTextAgrees: every level gets the same colour as from the dashboard's switch |
| TagInput.TagEditor.constructor | frontend/src/components/BlogEditor/TagInput.js:4-5 | The parent's tags and an empty field |
| TagInput.TagEditor.SetInputValue | frontend/src/components/BlogEditor/TagInput.js:49 | Changes only the typed text |
| TagInput.TagEditor.AddTag | frontend/src/components/BlogEditor/TagInput.js:16-22 | The new state is `Commit` of the old, and a duplicate-free list stays duplicate-free |
| TagInput.TagEditor.RemoveTag | frontend/src/components/BlogEditor/TagInput.js:24-26 | Drops position i and keeps the typed text. A duplicate-free list stays duplicate-free |
| TagInput.TagEditor.HandleKeyDown | frontend/src/components/BlogEditor/TagInput.js:7-14 | The new state is `KeyDown` of the old, and a duplicate-free list stays duplicate-free |
| TagInput.TagEditor.Blur | frontend/src/components/BlogEditor/TagInput.js:51 | Blur runs the same commit as Enter |
| TagInput.Normalize | frontend/src/components/BlogEditor/TagInput.js:17 | A normalized tag is no longer than the text and already lower case |
| TagInput.Commit | frontend/src/components/BlogEditor/TagInput.js:16-22 | Either nothing changes or the normalized tag is appended and the field cleared; a duplicate-free list stays so |
| TagInput.RemoveAt | frontend/src/components/BlogEditor/TagInput.js:24-26 | One tag fewer for an index in range, none otherwise; no tag appears that was not there, and a duplicate-free list stays so |
| TagInput.KeyDown | frontend/src/components/BlogEditor/TagInput.js:7-14 | Keys other than Enter, comma and Backspace change nothing; the field is kept or cleared; a duplicate-free list stays so |
| TagInput.CommitIff | frontend/src/components/BlogEditor/TagInput.js:16-22 | The trimmed, lower-cased text is appended, and the field cleared, iff it is non-empty and new. Otherwise tags and text are both unchanged |
| TagInput.CommitKeepsDistinct | frontend/src/components/BlogEditor/TagInput.js:18-19 | A commit never introduces a duplicate |
| TagInput.RemoveAtExact | frontend/src/components/BlogEditor/TagInput.js:24-26 | `removeTag(i)` deletes exactly position i and keeps the rest in order |
| TagInput.RemoveKeepsDistinct | frontend/src/components/BlogEditor/TagInput.js:25 | A removal never introduces a duplicate |
| TagInput.BackspaceDropsLast | frontend/src/components/BlogEditor/TagInput.js:11-12 | Backspace in an empty field drops the last tag. Otherwise it changes nothing |
| TagInput.CommitKeys | frontend/src/components/BlogEditor/TagInput.js:8-10 | Enter and comma run the commit. Keys other than these and Backspace change nothing |
| TagInput.NormalizeIdempotent | frontend/src/components/BlogEditor/TagInput.js:17 | A committed tag is its own normal form |
| Wrappers.Truthy | frontend/src/utils/slugify.js:12 | JavaScript truthiness of an optional string: present and non-empty. TruncateText and ShortTextUnchanged state a missing or empty text is returned as it was |
| Slugify.Substring | frontend/src/utils/slugify.js:13 | `substring(0, n)` clamps a negative end to 0 and one past the end to the length |
| Slugify.TruncateText | frontend/src/utils/slugify.js:11-14 | A missing text stays missing. A changed text was longer than the limit, and comes back ending in "..." and at most the limit plus three long |
| Slugify.ShortTextUnchanged | frontend/src/utils/slugify.js:12 | A missing or empty text, or one within the limit, is returned as it was |
| Slugify.LongTextTruncated | frontend/src/utils/slugify.js:13 | A longer text becomes its first `length` characters, trimmed, plus "...". It ends with "..." and is at most `length` + 3 long |
| Slugify.TruncationKeepsSlice | frontend/src/utils/slugify.js:13 | What is kept is one contiguous piece of the prefix, with only whitespace cut away on either side |
| Slugify.DefaultLimit | frontend/src/utils/slugify.js:11 | The default length is 160 |
| Slugify.TruncateTextDefault | frontend/src/utils/slugify.js:11 | DefaultLimit: `truncateText` with length 160 |
| Text.Lower | backend/server.py:246 | ASCII letters are lower-cased one character at a time. LowerIdempotent and LowerKeepsLowercase state what that means |
| Text.LowerIdempotent | frontend/src/components/BlogEditor/TagInput.js:17 | Lower-casing twice is lower-casing once |
| Text.LowerKeepsLowercase | frontend/src/App.js:38-40 | A text without capital letters is unchanged by lower-casing |
| Text.TrimStart | frontend/src/utils/slugify.js:13 | Never longer than its input. TrimStartShape: only leading whitespace is removed |
| Text.TrimEnd | frontend/src/utils/slugify.js:13 | Never longer than its input. TrimEndShape: only trailing whitespace is removed |
| Text.Trim | frontend/src/utils/slugify.js:13 | TrimIsSlice: a contiguous slice with only whitespace around it |
| Text.IsBlank | frontend/src/pages/Alerts.js:43 | BlankIffAllSpace: `!s.trim()` iff every character is whitespace |
| Text.Contains | backend/server.py:250 | ContainsIff: Python's `in` holds iff the needle occurs at some position |
| Text.StartsWith | backend/server.py:260 | `str.startswith`: the prefix fits and matches. AnyAiIpPrefix and IpPrefixRule build on it |
| Text.IsSpace | frontend/src/utils/slugify.js:13 | The characters `trim()` removes: ECMAScript's WhiteSpace and LineTerminator. TrimStartShape, TrimEndShape and BlankIffAllSpace build on it |
| Text.LowerChar | backend/server.py:246 | An ASCII capital becomes its small letter, and every other character is kept |
| Text.UpperChar | frontend/src/pages/TrafficLogs.js:79 | An ASCII small letter becomes its capital, and every other character is kept |
| Text.TrimStartShape | frontend/src/utils/slugify.js:13 | Trimming the start removes only whitespace, and a non-empty result starts with a non-space |
| Text.TrimEndShape | frontend/src/utils/slugify.js:13 | Trimming the end removes only whitespace, and a non-empty result ends with a non-space |
| Text.TrimIsSlice | frontend/src/utils/slugify.js:13 | `trim()` returns a contiguous slice with only whitespace around it and no whitespace at its ends |
| Text.BlankIffAllSpace | frontend/src/pages/Alerts.js:43 | `!s.trim()` holds iff every character is whitespace |
| Text.ContainsIff | backend/server.py:251 | Python's `in` on strings holds iff the needle occurs at some position |
| Text.Utf16Length | frontend/src/pages/Register.js:26 | JavaScript's `length` is between the number of characters and twice that |
| Text.Upper | frontend/src/pages/TrafficLogs.js:79 | ASCII letters are upper-cased one character at a time. ExportToastNamesFormat applies it to the export formats, which are ASCII |

## Left out

- The database, the network and cryptography are left out. That covers Mongo queries, the geolocation lookup, JWT, bcrypt and the HTTP transport. Query results are input sequences, already filtered by user, domain and time window, and the clock is a parameter.
- DNS and HTTP in `verify_domain` are inputs. A lookup or fetch that raised is `None`.
- DomainVerification.VerifyDomain: TXT strings are text, not the bytes `dnspython` returns, so the `.encode()` comparison is modelled on characters.
- Text.Lower: only ASCII letters are mapped. Python's `str.lower` and JavaScript's `toLowerCase` map all of Unicode.
- Text.Upper: only ASCII letters are mapped, one character for one. JavaScript's `toUpperCase` maps all of Unicode and can lengthen a string ("ß" becomes "SS"). The export toast only upper-cases "csv" or "json", where the two agree.
- Slugify.TruncateText: counts characters, not UTF-16 code units, so a character outside the Basic Multilingual Plane counts once.
- DashboardPage.DetectionRate: rounds the exact fraction half up. JavaScript's floating-point `Math.round(bot / total * 100)` can differ when the quotient is not exact.
- Confidence is modelled as integer tenths. Floating point is left out, and so is the percentage display of the traffic log page.
- PageKit.ErrorMessage: a FastAPI validation failure (422) carries a list of errors in `detail`, which the pages hand to the toast as it is. `Reply` carries only a text detail, so that case is not modelled.
- JsNumber.ParseInt: exact integers. Precision loss above 2^53 and `Infinity` are left out.
- Json.ParseUser: reads only the compact text `JSON.stringify` writes for a profile. Other valid JSON, with whitespace or reordered keys, is not read, and surrogate-pair escapes are refused.
- `generateSlug` wraps the `slugify` package, which is not part of this model. It is a parameter of the title handler.
- `stripHtml`, `formatDate` and `formatDateShort` depend on the DOM and on locale dates.
- The rich text editor, `MetaTags`, `BlogCard`, the landing page and all JSX markup are rendering only. A field's type and markup do not change the logic modelled.
- Concurrency is left out. Replies are applied in the order the requests were sent, with one success or failure per request, so races between fetches are not modelled.
- Toasts, `alert`, `window.confirm`, navigation, the clipboard (`copyToClipboard`, `handleShare`) and `scrollTo` are browser side effects. They are returned values or boolean parameters, or are left out.
- Buttons disabled while saving and character counters are markup only.
- Pages take the cached profile as `Option<UserProfile>`, so a `getUser` that throws on corrupt storage is not followed into the pages.
- BlogEditorPage.BlogEditorView.FetchBlog stores the fetched post as the form. Extra fields the server returns, and then sends back in the payload, are not modelled.
- The blog endpoints are not part of backend/server.py, so their results are inputs.
- The rest of the backend is not modelled: registration, login and tokens, the admin endpoints whose results the super administrator page reads, domain and key CRUD, and the CSV generation of the export.
- `backend_test.py` and the other scripts are used only for the user agents the classifier lemmas check.
