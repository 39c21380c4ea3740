/**
 * The API keys page, frontend/src/pages/ApiKeys.js: the user's keys,
 * creating one, deleting one behind a confirmation, and the integration
 * snippet a site owner pastes into their pages.
 */
module ApiKeysPage {
  import opened Wrappers
  import opened Text
  import opened PageKit

  /** A key as GET /api-keys lists it. */
  datatype ApiKey = ApiKey(id: string, key: string, name: string, isActive: bool)

  datatype ApiKeysRequest = ListKeys | CreateKey(name: string) | DeleteKey(keyId: string)

  const FetchFailed: Toast := ToastError("Failed to fetch API keys")

  function KeyNameError(name: string): (r: Option<string>)
    ensures r.None? <==> !IsBlank(name)
  {
    if IsBlank(name) then Some("Please enter a key name") else None
  }

  const DefaultBackendUrl: string := "http://localhost:8000"

  /** `process.env.REACT_APP_BACKEND_URL || 'http://localhost:8000'`. */
  function BackendUrl(env: Option<string>): (r: string)
    ensures r != ""
    ensures Truthy(env) ==> r == env.value
  {
    if Truthy(env) then env.value else DefaultBackendUrl
  }

  /** The snippet's opening comment and script tag, up to its first declaration. */
  const Intro: string := "\n<!-- Add this script to your website -->\n<script>\n(function() {\n  "
  const KeyDecl: string := "const API_KEY = '"
  const DomainDecl: string := "const DOMAIN = '"
  const UrlDecl: string := "const API_URL = '"
  /** The end of one `const` line and the indentation of the next. */
  const LineBreak: string := "';\n  "
  /** The snippet after the API address: one POST of the page view to /traffic/log. */
  const SnippetTail: string :=
    "';\n\n  // Log page view\n  fetch(API_URL + '/traffic/log', {\n    method: 'POST',\n"
    + "    headers: { 'Content-Type': 'application/json' },\n    body: JSON.stringify({\n"
    + "      domain: DOMAIN,\n      api_key: API_KEY,\n      ip_address: '', // Will be captured on backend\n"
    + "      user_agent: navigator.userAgent,\n      request_path: window.location.pathname,\n"
    + "      request_method: 'GET'\n    })\n  });\n})();\n</script>"

  /** `integrationCode(apiKey, domain)` with the backend address from the environment. */
  function IntegrationCode(apiKey: string, domain: string, env: Option<string>): (r: string)
    ensures Contains(r, KeyDecl + apiKey + LineBreak) && Contains(r, DomainDecl + domain + LineBreak)
  {
    var keyLine := KeyDecl + apiKey + LineBreak;
    var domainLine := DomainDecl + domain + LineBreak;
    var urlLine := UrlDecl + BackendUrl(env) + "/api" + SnippetTail;
    Pieces(Intro, keyLine, domainLine, urlLine);
    Intro + keyLine + domainLine + urlLine
  }

  class ApiKeysView {
    var apiKeys: seq<ApiKey>
    var loading: bool
    var newKeyName: string
    var isDialogOpen: bool
    var showIntegration: bool

    constructor ()
      ensures apiKeys == [] && loading && newKeyName == "" && !isDialogOpen && !showIntegration
    {
      apiKeys := [];
      loading := true;
      newKeyName := "";
      isDialogOpen := false;
      showIntegration := false;
    }

    /** `fetchApiKeys`: the list is replaced on success; `loading` ends false either way. */
    method FetchApiKeys(reply: Reply<seq<ApiKey>>) returns (toasts: seq<Toast>)
      modifies this
      ensures apiKeys == (if reply.Ok? then reply.data else old(apiKeys))
      ensures !loading && newKeyName == old(newKeyName) && isDialogOpen == old(isDialogOpen)
      ensures showIntegration == old(showIntegration)
      ensures toasts == if reply.Ok? then [] else [FetchFailed]
    {
      loading := true;
      if reply.Ok? {
        apiKeys := reply.data;
        toasts := [];
      } else {
        toasts := [FetchFailed];
      }
      loading := false;
    }

    method SetNewKeyName(text: string)
      modifies this
      ensures newKeyName == text
      ensures apiKeys == old(apiKeys) && loading == old(loading)
      ensures isDialogOpen == old(isDialogOpen) && showIntegration == old(showIntegration)
    {
      newKeyName := text;
    }

    /** `setIsDialogOpen`: the create buttons open the dialog and `onOpenChange` opens or closes it. */
    method SetDialogOpen(open: bool)
      modifies this
      ensures isDialogOpen == open
      ensures apiKeys == old(apiKeys) && loading == old(loading) && newKeyName == old(newKeyName)
      ensures showIntegration == old(showIntegration)
    {
      isDialogOpen := open;
    }

    /** The guide button flips the visibility of the snippet and touches nothing else. */
    method ToggleIntegration()
      modifies this
      ensures showIntegration == !old(showIntegration)
      ensures apiKeys == old(apiKeys) && loading == old(loading)
      ensures newKeyName == old(newKeyName) && isDialogOpen == old(isDialogOpen)
    {
      showIntegration := !showIntegration;
    }

    /**
     * `handleCreateKey`: a blank name sends nothing; the name is posted as
     * typed; on success the field is cleared, the dialog closed and the list
     * refetched.
     */
    method HandleCreateKey(reply: Reply<()>, listReply: Reply<seq<ApiKey>>)
      returns (requests: seq<ApiKeysRequest>, toasts: seq<Toast>)
      modifies this
      ensures showIntegration == old(showIntegration)
      ensures KeyNameError(old(newKeyName)).Some? ==>
                && requests == [] && toasts == [ToastError("Please enter a key name")]
                && apiKeys == old(apiKeys) && loading == old(loading)
                && newKeyName == old(newKeyName) && isDialogOpen == old(isDialogOpen)
      ensures KeyNameError(old(newKeyName)).None? && reply.Failed? ==>
                && requests == [CreateKey(old(newKeyName))] && toasts == [ToastError("Failed to create API key")]
                && apiKeys == old(apiKeys) && loading == old(loading)
                && newKeyName == old(newKeyName) && isDialogOpen == old(isDialogOpen)
      ensures KeyNameError(old(newKeyName)).None? && reply.Ok? ==>
                && requests == [CreateKey(old(newKeyName)), ListKeys]
                && newKeyName == "" && !isDialogOpen && !loading
                && apiKeys == (if listReply.Ok? then listReply.data else old(apiKeys))
                && toasts == [ToastSuccess("API key created")] + (if listReply.Ok? then [] else [FetchFailed])
    {
      if KeyNameError(newKeyName).Some? {
        return [], [ToastError("Please enter a key name")];
      }
      requests := [CreateKey(newKeyName)];
      if reply.Failed? {
        return requests, [ToastError("Failed to create API key")];
      }
      newKeyName := "";
      isDialogOpen := false;
      var fetched := FetchApiKeys(listReply);
      requests := requests + [ListKeys];
      toasts := [ToastSuccess("API key created")] + fetched;
    }

    /** `handleDeleteKey`: a declined confirmation sends nothing; the list is refetched only after a successful delete. */
    method HandleDeleteKey(keyId: string, confirmed: bool, reply: Reply<()>, listReply: Reply<seq<ApiKey>>)
      returns (requests: seq<ApiKeysRequest>, toasts: seq<Toast>)
      modifies this
      ensures newKeyName == old(newKeyName) && isDialogOpen == old(isDialogOpen) && showIntegration == old(showIntegration)
      ensures !confirmed ==> requests == [] && toasts == [] && apiKeys == old(apiKeys) && loading == old(loading)
      ensures confirmed && reply.Failed? ==>
                && requests == [DeleteKey(keyId)] && toasts == [ToastError("Failed to delete API key")]
                && apiKeys == old(apiKeys) && loading == old(loading)
      ensures confirmed && reply.Ok? ==>
                && requests == [DeleteKey(keyId), ListKeys] && !loading
                && apiKeys == (if listReply.Ok? then listReply.data else old(apiKeys))
                && toasts == [ToastSuccess("API key deleted")] + (if listReply.Ok? then [] else [FetchFailed])
    {
      if !confirmed {
        return [], [];
      }
      requests := [DeleteKey(keyId)];
      if reply.Failed? {
        return requests, [ToastError("Failed to delete API key")];
      }
      var fetched := FetchApiKeys(listReply);
      requests := requests + [ListKeys];
      toasts := [ToastSuccess("API key deleted")] + fetched;
    }
  }

  // ---------------------------------------------------------------------
  // Properties.

  /** A name of only whitespace is refused before any request; anything else is sent. */
  lemma KeyNameChecks(name: string)
    ensures KeyNameError(name).None? <==> !AllSpace(name)
  {
    BlankIffAllSpace(name);
  }

  /** Without a configured backend address the snippet posts to http://localhost:8000/api. */
  lemma DefaultAddress(env: Option<string>)
    ensures !Truthy(env) ==> BackendUrl(env) + "/api" == "http://localhost:8000/api"
    ensures Truthy(env) ==> BackendUrl(env) == env.value
  {
  }

  /**
   * The snippet declares the given key, the given domain and the backend
   * address followed by "/api", each quoted on its own `const` line.
   */
  lemma SnippetEmbeds(apiKey: string, domain: string, env: Option<string>)
    ensures var code := IntegrationCode(apiKey, domain, env);
            && Contains(code, KeyDecl + apiKey + LineBreak)
            && Contains(code, DomainDecl + domain + LineBreak)
            && Contains(code, UrlDecl + BackendUrl(env) + "/api" + SnippetTail)
  {
    Pieces(Intro, KeyDecl + apiKey + LineBreak, DomainDecl + domain + LineBreak, UrlDecl + BackendUrl(env) + "/api" + SnippetTail);
  }

  /** The guide on the page shows the snippet with the placeholders YOUR_API_KEY and YOUR_DOMAIN. */
  lemma GuidePlaceholders(env: Option<string>)
    ensures Contains(IntegrationCode("YOUR_API_KEY", "YOUR_DOMAIN", env), KeyDecl + "YOUR_API_KEY" + LineBreak)
    ensures Contains(IntegrationCode("YOUR_API_KEY", "YOUR_DOMAIN", env), DomainDecl + "YOUR_DOMAIN" + LineBreak)
  {
    SnippetEmbeds("YOUR_API_KEY", "YOUR_DOMAIN", env);
  }

  /** Each of the last three pieces of a four-piece text occurs in it. */
  lemma Pieces(w: string, x: string, y: string, z: string)
    ensures Contains(w + x + y + z, x) && Contains(w + x + y + z, y) && Contains(w + x + y + z, z)
  {
    var t := w + x + y + z;
    assert t[|w|..|w| + |x|] == x;
    assert t[|w| + |x|..|w| + |x| + |y|] == y;
    assert t[|w| + |x| + |y|..|t|] == z;
    ContainsAt(t, x, |w|);
    ContainsAt(t, y, |w| + |x|);
    ContainsAt(t, z, |w| + |x| + |y|);
  }
}
