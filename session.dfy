/**
 * The session store and the route guard of frontend/src/App.js. The token
 * and the cached profile live in `localStorage` under the keys "token" and
 * "user"; `PrivateRoute` lets a page through when a token is stored and
 * redirects to /login otherwise, without checking the token itself.
 */
module Session {
  import opened Wrappers
  import opened Text
  import opened Json

  const TokenKey: string := "token"
  const UserKey: string := "user"

  /** `window.localStorage`: a map from string keys to string values. */
  class LocalStorage {
    var items: map<string, string>

    constructor ()
      ensures items == map[]
    {
      items := map[];
    }

    /** `getItem(key)`: `null` (None) for an absent key. */
    method GetItem(key: string) returns (value: Option<string>)
      ensures value == Lookup(items, key)
    {
      value := if key in items then Some(items[key]) else None;
    }

    method SetItem(key: string, value: string)
      modifies this
      ensures items == old(items)[key := value]
    {
      items := items[key := value];
    }

    method RemoveItem(key: string)
      modifies this
      ensures items == old(items) - {key}
    {
      items := items - {key};
    }
  }

  function Lookup(items: map<string, string>, key: string): (r: Option<string>)
    ensures r.Some? <==> key in items
    ensures r.Some? ==> r.value == items[key]
  {
    if key in items then Some(items[key]) else None
  }

  /** What `getUser` yields: `null`, a profile, or the exception JSON.parse throws. */
  datatype UserRead = NoUser | User(profile: UserProfile) | ParseError

  function StoredToken(items: map<string, string>): (r: Option<string>)
    ensures r.Some? <==> TokenKey in items
    ensures r.Some? ==> r.value == items[TokenKey]
  {
    Lookup(items, TokenKey)
  }

  /** `user ? JSON.parse(user) : null` on the stored text. */
  function StoredUser(items: map<string, string>): (r: UserRead)
    ensures UserKey !in items || items[UserKey] == "" ==> r == NoUser
    ensures r.User? ==> UserKey in items && ParseUser(items[UserKey]) == Some(r.profile)
    ensures r == ParseError ==> UserKey in items && ParseUser(items[UserKey]).None?
  {
    var raw := Lookup(items, UserKey);
    if !Truthy(raw) then NoUser
    else match ParseUser(raw.value)
      case None => ParseError
      case Some(u) => User(u)
  }

  method GetAuthToken(storage: LocalStorage) returns (token: Option<string>)
    ensures token == StoredToken(storage.items)
  {
    token := storage.GetItem(TokenKey);
  }

  method SetAuthToken(storage: LocalStorage, token: string)
    modifies storage
    ensures storage.items == old(storage.items)[TokenKey := token]
  {
    storage.SetItem(TokenKey, token);
  }

  method RemoveAuthToken(storage: LocalStorage)
    modifies storage
    ensures storage.items == old(storage.items) - {TokenKey}
  {
    storage.RemoveItem(TokenKey);
  }

  method GetUser(storage: LocalStorage) returns (user: UserRead)
    ensures user == StoredUser(storage.items)
  {
    var raw := storage.GetItem(UserKey);
    if !Truthy(raw) {
      user := NoUser;
    } else {
      var parsed := ParseUser(raw.value);
      user := if parsed.Some? then User(parsed.value) else ParseError;
    }
  }

  method SetUser(storage: LocalStorage, user: UserProfile)
    modifies storage
    ensures storage.items == old(storage.items)[UserKey := Stringify(user)]
  {
    storage.SetItem(UserKey, Stringify(user));
  }

  method RemoveUser(storage: LocalStorage)
    modifies storage
    ensures storage.items == old(storage.items) - {UserKey}
  {
    storage.RemoveItem(UserKey);
  }

  // ---------------------------------------------------------------------
  // Routes.

  datatype Page = Landing | Login | Register | Dashboard | Domains | TrafficLogs | ApiKeys | Alerts | SuperAdmin

  /** What the router renders for a location. */
  datatype Render = Show(page: Page) | RedirectTo(path: string) | NoMatch

  /** `s` without the slashes it ends with. */
  function DropTrailingSlashes(s: string): (r: string)
    ensures |r| <= |s| && r == s[..|r|]
    ensures r == "" || r[|r| - 1] != '/'
    ensures forall i :: |r| <= i < |s| ==> s[i] == '/'
  {
    if s == [] || s[|s| - 1] != '/' then s else DropTrailingSlashes(s[..|s| - 1])
  }

  /**
   * The pathname as the router compares it with a route path: a route
   * matches without regard to case (react-router's `caseSensitive` is off by
   * default) and whatever slashes follow it, so letters are lower-cased and
   * trailing slashes dropped, "/" and a run of slashes both being "/".
   */
  function RouteKey(pathname: string): (r: string)
    ensures r != ""
  {
    var stripped := DropTrailingSlashes(Lower(pathname));
    if stripped == "" then "/" else stripped
  }

  /** The routes anyone may open, by route key. */
  function PublicPage(key: string): (r: Option<Page>)
    ensures r.Some? <==> key in {"/", "/login", "/register"}
  {
    if key == "/" then Some(Landing)
    else if key == "/login" then Some(Login)
    else if key == "/register" then Some(Register)
    else None
  }

  /** The routes wrapped in `PrivateRoute`, by route key. */
  function GuardedPage(key: string): (r: Option<Page>)
    ensures r.Some? <==> key in {"/dashboard", "/domains", "/traffic", "/api-keys", "/alerts", "/admin"}
  {
    if key == "/dashboard" then Some(Dashboard)
    else if key == "/domains" then Some(Domains)
    else if key == "/traffic" then Some(TrafficLogs)
    else if key == "/api-keys" then Some(ApiKeys)
    else if key == "/alerts" then Some(Alerts)
    else if key == "/admin" then Some(SuperAdmin)
    else None
  }

  /** `token ? children : <Navigate to="/login" />`. */
  function PrivateRoute(token: Option<string>, child: Page): (r: Render)
    ensures r == Show(child) <==> Truthy(token)
    ensures r != Show(child) ==> r == RedirectTo("/login")
  {
    if Truthy(token) then Show(child) else RedirectTo("/login")
  }

  /** The `<Routes>` table for a location's pathname and the stored token. */
  function Resolve(pathname: string, token: Option<string>): (r: Render)
    ensures r.RedirectTo? ==> r.path == "/login" && GuardedPage(RouteKey(pathname)).Some? && !Truthy(token)
    ensures r.Show? && !Truthy(token) ==> PublicPage(RouteKey(pathname)) == Some(r.page)
    ensures r == NoMatch <==> PublicPage(RouteKey(pathname)).None? && GuardedPage(RouteKey(pathname)).None?
  {
    var key := RouteKey(pathname);
    match PublicPage(key)
    case Some(p) => Show(p)
    case None =>
      match GuardedPage(key)
      case Some(p) => PrivateRoute(token, p)
      case None => NoMatch
  }

  // ---------------------------------------------------------------------
  // Properties.

  /** `getAuthToken` returns the token last set, and `null` once it is removed. */
  lemma TokenRoundTrip(items: map<string, string>, token: string)
    ensures StoredToken(items[TokenKey := token]) == Some(token)
    ensures StoredToken(items - {TokenKey}) == None
  {
  }

  /** `getUser` returns the profile last set, and `null` once it is removed. */
  lemma UserRoundTrip(items: map<string, string>, user: UserProfile)
    ensures StoredUser(items[UserKey := Stringify(user)]) == User(user)
    ensures StoredUser(items - {UserKey}) == NoUser
  {
    StringifyRoundTrip(user);
    StringifyInjective(user, user);
  }

  /** Writing or removing the token leaves the user as it was, and the other way round. */
  lemma KeysIndependent(items: map<string, string>, value: string)
    ensures StoredUser(items[TokenKey := value]) == StoredUser(items)
    ensures StoredUser(items - {TokenKey}) == StoredUser(items)
    ensures StoredToken(items[UserKey := value]) == StoredToken(items)
    ensures StoredToken(items - {UserKey}) == StoredToken(items)
  {
    assert Lookup(items[TokenKey := value], UserKey) == Lookup(items, UserKey);
    assert Lookup(items - {TokenKey}, UserKey) == Lookup(items, UserKey);
  }

  /**
   * Exactly /dashboard, /domains, /traffic, /api-keys, /alerts and /admin
   * are guarded (in any case, with any trailing slashes): without a truthy
   * token they redirect to /login, and with one they show their page,
   * whatever the token is.
   */
  lemma GuardedRoutes(pathname: string, token: Option<string>)
    ensures GuardedPage(RouteKey(pathname)).Some?
            <==> RouteKey(pathname) in {"/dashboard", "/domains", "/traffic", "/api-keys", "/alerts", "/admin"}
    ensures Resolve(pathname, token) == RedirectTo("/login") <==> GuardedPage(RouteKey(pathname)).Some? && !Truthy(token)
    ensures GuardedPage(RouteKey(pathname)).Some? && Truthy(token)
            ==> Resolve(pathname, token) == Show(GuardedPage(RouteKey(pathname)).value)
  {
  }

  /**
   * /, /login and /register show their page with or without a token; a
   * pathname whose route key is none of the nine routes matches nothing.
   */
  lemma PublicRoutes(pathname: string, token: Option<string>)
    ensures PublicPage(RouteKey(pathname)).Some? <==> RouteKey(pathname) in {"/", "/login", "/register"}
    ensures PublicPage(RouteKey(pathname)).Some? ==> Resolve(pathname, token) == Show(PublicPage(RouteKey(pathname)).value)
    ensures Resolve(pathname, token) == NoMatch
            <==> PublicPage(RouteKey(pathname)).None? && GuardedPage(RouteKey(pathname)).None?
  {
  }

  /**
   * Matching ignores a trailing slash and the case of letters, and a route
   * path written in lower case without a trailing slash is its own key.
   */
  lemma RouteKeyNormalizes(pathname: string)
    ensures RouteKey(pathname + "/") == RouteKey(pathname)
    ensures RouteKey(Lower(pathname)) == RouteKey(pathname)
    ensures pathname != "" && Lower(pathname) == pathname && pathname[|pathname| - 1] != '/'
            ==> RouteKey(pathname) == pathname
  {
    assert Lower(pathname + "/") == Lower(pathname) + "/";
    var l := Lower(pathname + "/");
    assert l[..|l| - 1] == Lower(pathname);
    LowerIdempotent(pathname);
  }

  /** A non-empty path without capital letters or a trailing slash is its own route key. */
  lemma CanonicalIsKey(path: string)
    requires path != "" && path[|path| - 1] != '/'
    requires forall i :: 0 <= i < |path| ==> !('A' <= path[i] <= 'Z')
    ensures RouteKey(path) == path
  {
    LowerKeepsLowercase(path);
    RouteKeyNormalizes(path);
  }

  /** Each route path of the table, as written, is its own route key. */
  lemma RoutePathsAreKeys(path: string)
    requires path in {"/", "/login", "/register", "/dashboard", "/domains", "/traffic", "/api-keys", "/alerts", "/admin"}
    ensures RouteKey(path) == path
  {
    if path == "/" {
      assert Lower(path) == "/";
      assert DropTrailingSlashes("/") == DropTrailingSlashes("");
    } else if path == "/login" {
      CanonicalIsKey("/login");
    } else if path == "/register" {
      CanonicalIsKey("/register");
    } else if path == "/dashboard" {
      CanonicalIsKey("/dashboard");
    } else if path == "/domains" {
      CanonicalIsKey("/domains");
    } else if path == "/traffic" {
      CanonicalIsKey("/traffic");
    } else if path == "/api-keys" {
      CanonicalIsKey("/api-keys");
    } else if path == "/alerts" {
      CanonicalIsKey("/alerts");
    } else {
      CanonicalIsKey("/admin");
    }
  }

  /** A pathname whose route key is "/dashboard" is the guarded dashboard route. */
  lemma DashboardKeyResolves(pathname: string, token: Option<string>)
    requires RouteKey(pathname) == "/dashboard"
    ensures Resolve(pathname, token) == PrivateRoute(token, Dashboard)
  {
  }

  /** "/Dashboard/" is the dashboard route: it redirects without a token and shows the dashboard with one. */
  lemma CapitalizedSlashedDashboard(token: Option<string>)
    ensures RouteKey("/Dashboard/") == "/dashboard"
    ensures Resolve("/Dashboard/", token) == PrivateRoute(token, Dashboard)
  {
    var p := "/Dashboard";
    assert p + "/" == "/Dashboard/";
    RouteKeyNormalizes(p);
    assert Lower(p) == "/dashboard";
    RoutePathsAreKeys("/dashboard");
    DashboardKeyResolves("/Dashboard/", token);
  }
}
