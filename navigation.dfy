/**
 * The top menu of frontend/src/components/Navigation.js: five fixed items,
 * a sixth for super administrators, the test id and highlight of each
 * item, and logout.
 */
module Navigation {
  import opened Wrappers
  import opened Text
  import opened Json
  import opened Session

  datatype NavItem = NavItem(path: string, name: string)

  const BaseItems: seq<NavItem> := [
    NavItem("/dashboard", "Dashboard"),
    NavItem("/domains", "Domains"),
    NavItem("/traffic", "Traffic Logs"),
    NavItem("/api-keys", "API Keys"),
    NavItem("/alerts", "Alerts")
  ]

  const AdminItem: NavItem := NavItem("/admin", "Super Admin")

  /** `user?.is_super_admin` on the cached profile (`null` when none is stored). */
  predicate IsSuperAdmin(user: Option<UserProfile>) {
    user.Some? && user.value.isSuperAdmin
  }

  /** Builds `navItems`: the five base items, then `push` of the admin item for a super administrator. */
  method BuildNavItems(user: Option<UserProfile>) returns (items: seq<NavItem>)
    ensures |items| == if IsSuperAdmin(user) then 6 else 5
    ensures items[..5] == BaseItems
    ensures IsSuperAdmin(user) ==> items[5] == AdminItem
    ensures AdminItem in items <==> IsSuperAdmin(user)
  {
    items := BaseItems;
    if user.Some? && user.value.isSuperAdmin {
      items := items + [AdminItem];
    }
    assert items[..5] == BaseItems;
  }

  /** The index of the first occurrence of `c` in `s`, if any. */
  function FirstIndex(s: string, c: char): (r: Option<nat>)
    ensures r.Some? ==> r.value < |s| && s[r.value] == c && c !in s[..r.value]
    ensures r.None? <==> c !in s
  {
    if s == [] then None
    else if s[0] == c then Some(0)
    else
      match FirstIndex(s[1..], c)
      case None => None
      case Some(k) =>
        assert s[..k + 1] == [s[0]] + s[1..][..k];
        Some(k + 1)
  }

  /** `s.replace(from, to)` with a one-character string pattern: only the first occurrence is replaced. */
  function ReplaceFirst(s: string, from: char, to: char): (r: string)
    ensures |r| == |s|
    ensures FirstIndex(s, from).None? ==> r == s
    ensures FirstIndex(s, from).Some? ==> r == s[FirstIndex(s, from).value := to]
  {
    match FirstIndex(s, from)
    case None => s
    case Some(k) => s[k := to]
  }

  /** `nav-${item.label.toLowerCase().replace(' ', '-')}`. */
  function TestId(name: string): string {
    "nav-" + ReplaceFirst(Lower(name), ' ', '-')
  }

  /** An item is highlighted exactly when its path is the current pathname. */
  predicate IsActive(item: NavItem, pathname: string) {
    item.path == pathname
  }

  /** `handleLogout`: removes the token, then the user, then navigates to /login. */
  method HandleLogout(storage: LocalStorage) returns (navigateTo: string)
    modifies storage
    ensures storage.items == old(storage.items) - {TokenKey} - {UserKey}
    ensures navigateTo == "/login"
  {
    RemoveAuthToken(storage);
    RemoveUser(storage);
    navigateTo := "/login";
  }

  // ---------------------------------------------------------------------
  // Properties.

  /** After logout no token and no user are stored, so every guarded route redirects to /login. */
  lemma LogoutEndsSession(items: map<string, string>, path: string)
    ensures StoredToken(items - {TokenKey} - {UserKey}) == None
    ensures StoredUser(items - {TokenKey} - {UserKey}) == NoUser
    ensures GuardedPage(RouteKey(path)).Some? ==> Resolve(path, StoredToken(items - {TokenKey} - {UserKey})) == RedirectTo("/login")
  {
    assert TokenKey !in items - {TokenKey} - {UserKey};
    assert UserKey !in items - {TokenKey} - {UserKey};
  }

  /** The menu paths are pairwise different, so for any pathname at most one item is highlighted. */
  lemma AtMostOneActive(items: seq<NavItem>, pathname: string, i: nat, j: nat)
    requires items == BaseItems || items == BaseItems + [AdminItem]
    requires i < |items| && j < |items| && IsActive(items[i], pathname) && IsActive(items[j], pathname)
    ensures i == j
  {
  }

  /** Every menu path is a route guarded by `PrivateRoute`, and the router matches it as written. */
  lemma MenuPathsGuarded(items: seq<NavItem>, i: nat)
    requires items == BaseItems || items == BaseItems + [AdminItem]
    requires i < |items|
    ensures RouteKey(items[i].path) == items[i].path
    ensures GuardedPage(RouteKey(items[i].path)).Some?
  {
    RoutePathsAreKeys(items[i].path);
  }

  /**
   * For a label made of a first word without spaces, a space and the rest,
   * the test id is "nav-", the lower-cased first word, a hyphen and the
   * lower-cased rest: "Traffic Logs" gives "nav-traffic-logs".
   */
  lemma TestIdOfWords(first: string, rest: string)
    requires ' ' !in first
    ensures TestId(first + " " + rest) == "nav-" + Lower(first) + "-" + Lower(rest)
  {
    var name := first + " " + rest;
    var l := Lower(name);
    assert ' ' !in Lower(first) by {
      forall i | 0 <= i < |first| ensures Lower(first)[i] != ' ' {
        assert first[i] != ' ';
      }
    }
    assert l == Lower(first) + " " + Lower(rest);
    assert FirstIndex(l, ' ') == Some(|first|) by {
      assert l[..|first|] == Lower(first);
    }
  }

  /** A space after the first one is kept: the replacement is not global. */
  lemma SecondSpaceKept(name: string, k: nat)
    requires k < |name| && name[k] == ' '
    requires exists i :: 0 <= i < k && name[i] == ' '
    ensures TestId(name)[4 + k] == ' '
  {
    var l := Lower(name);
    var i :| 0 <= i < k && name[i] == ' ';
    assert l[i] == ' ' && l[..k][i] == ' ';
    assert FirstIndex(l, ' ').value < k;
  }
}
