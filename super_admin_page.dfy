/**
 * The super administrator's page, frontend/src/pages/SuperAdmin.js: a gate
 * on the cached profile's admin flag, the platform statistics, every user
 * and domain, and the activity of one selected user.
 */
module SuperAdminPage {
  import opened Wrappers
  import opened PageKit
  import opened Records
  import opened Json
  import Navigation
  import Session
  import DashboardPage

  /** The body of GET /admin/stats. */
  datatype AdminStats = AdminStats(totalUsers: nat, totalDomains: nat, verifiedDomains: nat,
                                   totalLogs: nat, botDetections: nat, recentActivity: seq<LogRecord>)

  /** An entry of GET /admin/domains: the domain and its owner's email. */
  datatype AdminDomain = AdminDomain(domain: DomainRecord, userEmail: string)

  /** The body of GET /admin/user/{id}/activity. */
  datatype UserActivity = UserActivity(user: UserProfile, domains: seq<DomainRecord>,
                                       recentLogs: seq<LogRecord>, apiKeys: seq<ApiKeyRecord>)

  datatype AdminRequest = GetAdminStats | GetAllUsers | GetAllDomains | GetUserActivity(userId: string)

  const AccessDenied: Toast := ToastError("Access denied: Super admin only")

  /** The risk text class of the recent activity list, a chain of ternaries. */
  function RiskText(risk: string): string {
    if risk == "high" then "text-red-400"
    else if risk == "medium" then "text-yellow-400"
    else if risk == "low" then "text-green-400"
    else "text-gray-400"
  }

  class SuperAdminView {
    /** `getUser()` at render time. */
    const user: Option<UserProfile>
    var stats: Option<AdminStats>
    var users: seq<UserProfile>
    var domains: seq<AdminDomain>
    var selectedUser: Option<string>
    var userActivity: Option<UserActivity>
    var loading: bool

    constructor (cached: Option<UserProfile>)
      ensures user == cached && stats == None && users == [] && domains == []
      ensures selectedUser == None && userActivity == None && loading
    {
      user := cached;
      stats := None;
      users := [];
      domains := [];
      selectedUser := None;
      userActivity := None;
      loading := true;
    }

    /**
     * The mount effect. Without a super administrator it raises the denial
     * and leaves for /dashboard, fetching nothing. Otherwise it fetches the
     * statistics, the users and the domains; only the statistics fetch
     * clears `loading`, whatever its outcome.
     */
    method Mount(statsReply: Reply<AdminStats>, usersReply: Reply<seq<UserProfile>>, domainsReply: Reply<seq<AdminDomain>>)
      returns (requests: seq<AdminRequest>, toasts: seq<Toast>, navigateTo: Option<string>)
      modifies this
      ensures selectedUser == old(selectedUser) && userActivity == old(userActivity)
      ensures !Navigation.IsSuperAdmin(user) ==>
                && requests == [] && toasts == [AccessDenied] && navigateTo == Some("/dashboard")
                && stats == old(stats) && users == old(users) && domains == old(domains) && loading == old(loading)
      ensures Navigation.IsSuperAdmin(user) ==>
                && requests == [GetAdminStats, GetAllUsers, GetAllDomains] && navigateTo == None && !loading
                && stats == (if statsReply.Ok? then Some(statsReply.data) else old(stats))
                && users == (if usersReply.Ok? then usersReply.data else old(users))
                && domains == (if domainsReply.Ok? then domainsReply.data else old(domains))
                && toasts == (if statsReply.Ok? then [] else [ToastError("Failed to fetch stats")])
                             + (if usersReply.Ok? then [] else [ToastError("Failed to fetch users")])
                             + (if domainsReply.Ok? then [] else [ToastError("Failed to fetch domains")])
    {
      if !(user.Some? && user.value.isSuperAdmin) {
        return [], [AccessDenied], Some("/dashboard");
      }
      var t1 := FetchAdminStats(statsReply);
      var t2 := FetchAllUsers(usersReply);
      var t3 := FetchAllDomains(domainsReply);
      requests := [GetAdminStats, GetAllUsers, GetAllDomains];
      toasts := t1 + t2 + t3;
      navigateTo := None;
    }

    method FetchAdminStats(reply: Reply<AdminStats>) returns (toasts: seq<Toast>)
      modifies this
      ensures stats == (if reply.Ok? then Some(reply.data) else old(stats)) && !loading
      ensures toasts == if reply.Ok? then [] else [ToastError("Failed to fetch stats")]
      ensures users == old(users) && domains == old(domains)
      ensures selectedUser == old(selectedUser) && userActivity == old(userActivity)
    {
      if reply.Ok? {
        stats := Some(reply.data);
        toasts := [];
      } else {
        toasts := [ToastError("Failed to fetch stats")];
      }
      loading := false;
    }

    method FetchAllUsers(reply: Reply<seq<UserProfile>>) returns (toasts: seq<Toast>)
      modifies this
      ensures users == (if reply.Ok? then reply.data else old(users))
      ensures toasts == if reply.Ok? then [] else [ToastError("Failed to fetch users")]
      ensures stats == old(stats) && domains == old(domains) && loading == old(loading)
      ensures selectedUser == old(selectedUser) && userActivity == old(userActivity)
    {
      if reply.Ok? {
        users := reply.data;
        toasts := [];
      } else {
        toasts := [ToastError("Failed to fetch users")];
      }
    }

    method FetchAllDomains(reply: Reply<seq<AdminDomain>>) returns (toasts: seq<Toast>)
      modifies this
      ensures domains == (if reply.Ok? then reply.data else old(domains))
      ensures toasts == if reply.Ok? then [] else [ToastError("Failed to fetch domains")]
      ensures stats == old(stats) && users == old(users) && loading == old(loading)
      ensures selectedUser == old(selectedUser) && userActivity == old(userActivity)
    {
      if reply.Ok? {
        domains := reply.data;
        toasts := [];
      } else {
        toasts := [ToastError("Failed to fetch domains")];
      }
    }

    /** `fetchUserActivity(userId)`: the activity and the selection change together, and only on success. */
    method FetchUserActivity(userId: string, reply: Reply<UserActivity>) returns (requests: seq<AdminRequest>, toasts: seq<Toast>)
      modifies this
      ensures requests == [GetUserActivity(userId)]
      ensures reply.Ok? ==> userActivity == Some(reply.data) && selectedUser == Some(userId) && toasts == []
      ensures reply.Failed? ==>
                userActivity == old(userActivity) && selectedUser == old(selectedUser)
                && toasts == [ToastError("Failed to fetch user activity")]
      ensures stats == old(stats) && users == old(users) && domains == old(domains) && loading == old(loading)
    {
      requests := [GetUserActivity(userId)];
      if reply.Ok? {
        userActivity := Some(reply.data);
        selectedUser := Some(userId);
        toasts := [];
      } else {
        toasts := [ToastError("Failed to fetch user activity")];
      }
    }
  }

  // ---------------------------------------------------------------------
  // Properties.

  /**
   * The gate follows the session: after `setUser(u)` the page reads `u`
   * back and lets it through exactly when it has the admin flag; after
   * logout no profile is stored and the page is refused.
   */
  lemma GateFollowsSession(items: map<string, string>, u: UserProfile)
    ensures var r := Session.StoredUser(items[Session.UserKey := Stringify(u)]);
            r == Session.User(u) && (Navigation.IsSuperAdmin(Some(r.profile)) <==> u.isSuperAdmin)
    ensures Session.StoredUser(items - {Session.UserKey}) == Session.NoUser && !Navigation.IsSuperAdmin(None)
  {
    Session.UserRoundTrip(items, u);
  }

  /** The ternary chain of this page colours every risk level as the switch of the dashboard does. */
  lemma RiskTextAgrees(risk: string)
    ensures RiskText(risk) == DashboardPage.RiskColor(risk)
    ensures RiskText(risk) == "text-gray-400" <==> risk !in {"high", "medium", "low"}
  {
  }
}
