/**
 * The login form of frontend/src/pages/Login.js. `handleLogin` is split at
 * its `await`: `Submit` is what runs before the request, `Complete` what
 * runs once the reply is in.
 */
module LoginPage {
  import opened Wrappers
  import opened Json
  import opened Session
  import opened PageKit

  /** The body of a successful POST /auth/login. */
  datatype LoginData = LoginData(accessToken: string, user: UserProfile)

  class LoginForm {
    var email: string
    var password: string
    var loading: bool

    constructor ()
      ensures email == "" && password == "" && !loading
    {
      email := "";
      password := "";
      loading := false;
    }

    /** The submit button is disabled while a request is in flight. */
    predicate SubmitDisabled()
      reads this
    {
      loading
    }

    /** `handleLogin` up to its `await`: sets `loading` and posts the credentials. */
    method Submit() returns (credentials: (string, string))
      modifies this
      ensures loading && email == old(email) && password == old(password)
      ensures credentials == (email, password)
    {
      loading := true;
      credentials := (email, password);
    }

    /**
     * `handleLogin` after its `await`: on success the token and then the
     * user are stored and the page goes to /dashboard; on failure nothing
     * is stored and the server's detail (or "Login failed") is shown.
     * Either way `loading` ends false.
     */
    method Complete(storage: LocalStorage, reply: Reply<LoginData>) returns (toast: Toast, navigateTo: Option<string>)
      modifies this, storage
      ensures !loading && email == old(email) && password == old(password)
      ensures reply.Ok? ==> && storage.items == old(storage.items)[TokenKey := reply.data.accessToken][UserKey := Stringify(reply.data.user)]
                            && toast == ToastSuccess("Login successful!") && navigateTo == Some("/dashboard")
      ensures reply.Failed? ==> && storage.items == old(storage.items)
                                && toast == ToastError(ErrorMessage(reply.detail, "Login failed")) && navigateTo == None
    {
      if reply.Ok? {
        SetAuthToken(storage, reply.data.accessToken);
        SetUser(storage, reply.data.user);
        toast := ToastSuccess("Login successful!");
        navigateTo := Some("/dashboard");
      } else {
        toast := ToastError(ErrorMessage(reply.detail, "Login failed"));
        navigateTo := None;
      }
      loading := false;
    }
  }

  /**
   * A successful login leaves the token and the profile of the reply in
   * the store, and with a non-empty token /dashboard opens.
   */
  lemma LoginStartsSession(items: map<string, string>, data: LoginData)
    ensures var after := items[TokenKey := data.accessToken][UserKey := Stringify(data.user)];
            && StoredToken(after) == Some(data.accessToken)
            && StoredUser(after) == User(data.user)
            && (data.accessToken != "" ==> Resolve("/dashboard", StoredToken(after)) == Show(Dashboard))
  {
    var withToken := items[TokenKey := data.accessToken];
    TokenRoundTrip(items, data.accessToken);
    KeysIndependent(withToken, Stringify(data.user));
    UserRoundTrip(withToken, data.user);
    RoutePathsAreKeys("/dashboard");
  }
}
