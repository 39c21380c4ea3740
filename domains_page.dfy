/**
 * The domains page, frontend/src/pages/Domains.js: the user's domains,
 * adding one, asking the backend to verify one, deleting one behind a
 * confirmation, and the two ownership proofs it tells the user to publish.
 */
module DomainsPage {
  import opened Wrappers
  import opened Text
  import opened PageKit
  import opened DomainVerification

  /** A domain as GET /domains lists it. */
  datatype Domain = Domain(id: string, domain: string, verificationToken: string, isVerified: bool)

  /** The body of POST /domains/{id}/verify. */
  datatype VerifyReply = VerifyReply(verified: bool, verifyMethod: Option<string>, message: Option<string>)

  datatype DomainsRequest = ListDomains | AddDomain(domain: string) | VerifyDomainRequest(domainId: string) | DeleteDomain(domainId: string)

  const FetchFailed: Toast := ToastError("Failed to fetch domains")

  function AddDomainError(text: string): (r: Option<string>)
    ensures r.None? <==> !IsBlank(text)
  {
    if IsBlank(text) then Some("Please enter a domain") else None
  }

  /** What `verify_domain` answers for each of its outcomes; the 404 is a rejected request. */
  function VerifyBody(r: VerifyResult): (b: Reply<VerifyReply>)
    ensures b.Failed? <==> r == NotFound
    ensures b.Ok? ==> (b.data.verified <==> r != NotVerified)
    ensures b.Ok? ==> (b.data.verifyMethod.Some? <==> r.VerifiedBy?)
  {
    match r
    case NotFound => Failed(Some("Domain not found"))
    case AlreadyVerified => Ok(VerifyReply(true, None, Some("Domain already verified")))
    case VerifiedBy(m) => Ok(VerifyReply(true, Some(m), None))
    case NotVerified => Ok(VerifyReply(false, None, Some("Verification failed. Please check DNS TXT record or file.")))
  }

  /** `${response.data.method}`: a missing field is written "undefined". */
  function MethodText(m: Option<string>): string {
    if m.Some? then m.value else "undefined"
  }

  /** The toast `handleVerifyDomain` shows and whether it refetches the list. */
  function VerifyFeedback(reply: Reply<VerifyReply>): (r: (Toast, bool))
    ensures r.1 <==> reply.Ok? && reply.data.verified
    ensures r.0.ToastSuccess? <==> r.1
  {
    match reply
    case Failed(_) => (ToastError("Verification failed"), false)
    case Ok(v) =>
      if v.verified then (ToastSuccess("Domain verified via " + MethodText(v.verifyMethod) + "!"), true)
      else (ToastError(if Truthy(v.message) then v.message.value else "Verification failed"), false)
  }

  /** The TXT record the page offers to copy. */
  function DnsRecord(token: string): (r: string)
    ensures r == VerificationString(token)
  {
    "aibot-detect=" + token
  }

  /** The address the page tells the user to serve the token at. */
  function FileLocation(domain: string): (r: string)
    ensures r == FileUrl(domain)
  {
    "https://" + domain + "/.well-known/aibot-detect.txt"
  }

  /** The instructions and the Verify button are rendered only for an unverified domain. */
  predicate ShowsVerification(d: Domain) {
    !d.isVerified
  }

  class DomainsView {
    var domains: seq<Domain>
    var loading: bool
    var newDomain: string
    var isDialogOpen: bool

    constructor ()
      ensures domains == [] && loading && newDomain == "" && !isDialogOpen
    {
      domains := [];
      loading := true;
      newDomain := "";
      isDialogOpen := false;
    }

    /** `fetchDomains`: the list is replaced on success; `loading` ends false either way. */
    method FetchDomains(reply: Reply<seq<Domain>>) returns (toasts: seq<Toast>)
      modifies this
      ensures domains == (if reply.Ok? then reply.data else old(domains))
      ensures !loading && newDomain == old(newDomain) && isDialogOpen == old(isDialogOpen)
      ensures toasts == if reply.Ok? then [] else [FetchFailed]
    {
      loading := true;
      if reply.Ok? {
        domains := reply.data;
        toasts := [];
      } else {
        toasts := [FetchFailed];
      }
      loading := false;
    }

    method SetNewDomain(text: string)
      modifies this
      ensures newDomain == text
      ensures domains == old(domains) && loading == old(loading) && isDialogOpen == old(isDialogOpen)
    {
      newDomain := text;
    }

    /** `setIsDialogOpen`: the add buttons open the dialog and `onOpenChange` opens or closes it. */
    method SetDialogOpen(open: bool)
      modifies this
      ensures isDialogOpen == open
      ensures domains == old(domains) && loading == old(loading) && newDomain == old(newDomain)
    {
      isDialogOpen := open;
    }

    /**
     * `handleAddDomain`: a blank entry sends nothing; the entry is posted as
     * typed; on success the field is cleared, the dialog closed and the
     * list refetched; on failure the server's detail is shown.
     */
    method HandleAddDomain(reply: Reply<()>, listReply: Reply<seq<Domain>>)
      returns (requests: seq<DomainsRequest>, toasts: seq<Toast>)
      modifies this
      ensures AddDomainError(old(newDomain)).Some? ==>
                && requests == [] && toasts == [ToastError("Please enter a domain")]
                && domains == old(domains) && loading == old(loading)
                && newDomain == old(newDomain) && isDialogOpen == old(isDialogOpen)
      ensures AddDomainError(old(newDomain)).None? && reply.Failed? ==>
                && requests == [AddDomain(old(newDomain))]
                && toasts == [ToastError(ErrorMessage(reply.detail, "Failed to add domain"))]
                && domains == old(domains) && loading == old(loading)
                && newDomain == old(newDomain) && isDialogOpen == old(isDialogOpen)
      ensures AddDomainError(old(newDomain)).None? && reply.Ok? ==>
                && requests == [AddDomain(old(newDomain)), ListDomains]
                && newDomain == "" && !isDialogOpen && !loading
                && domains == (if listReply.Ok? then listReply.data else old(domains))
                && toasts == [ToastSuccess("Domain added successfully")] + (if listReply.Ok? then [] else [FetchFailed])
    {
      if AddDomainError(newDomain).Some? {
        return [], [ToastError("Please enter a domain")];
      }
      requests := [AddDomain(newDomain)];
      if reply.Failed? {
        return requests, [ToastError(ErrorMessage(reply.detail, "Failed to add domain"))];
      }
      newDomain := "";
      isDialogOpen := false;
      var fetched := FetchDomains(listReply);
      requests := requests + [ListDomains];
      toasts := [ToastSuccess("Domain added successfully")] + fetched;
    }

    /** `handleVerifyDomain`: the list is refetched only when the answer says verified. */
    method HandleVerifyDomain(domainId: string, reply: Reply<VerifyReply>, listReply: Reply<seq<Domain>>)
      returns (requests: seq<DomainsRequest>, toasts: seq<Toast>)
      modifies this
      ensures newDomain == old(newDomain) && isDialogOpen == old(isDialogOpen)
      ensures !VerifyFeedback(reply).1 ==>
                && requests == [VerifyDomainRequest(domainId)] && toasts == [VerifyFeedback(reply).0]
                && domains == old(domains) && loading == old(loading)
      ensures VerifyFeedback(reply).1 ==>
                && requests == [VerifyDomainRequest(domainId), ListDomains] && !loading
                && domains == (if listReply.Ok? then listReply.data else old(domains))
                && toasts == [VerifyFeedback(reply).0] + (if listReply.Ok? then [] else [FetchFailed])
    {
      var (toast, refetch) := VerifyFeedback(reply);
      requests := [VerifyDomainRequest(domainId)];
      toasts := [toast];
      if refetch {
        var fetched := FetchDomains(listReply);
        requests := requests + [ListDomains];
        toasts := toasts + fetched;
      }
    }

    /** `handleDeleteDomain`: a declined confirmation sends nothing; the list is refetched only after a successful delete. */
    method HandleDeleteDomain(domainId: string, confirmed: bool, reply: Reply<()>, listReply: Reply<seq<Domain>>)
      returns (requests: seq<DomainsRequest>, toasts: seq<Toast>)
      modifies this
      ensures newDomain == old(newDomain) && isDialogOpen == old(isDialogOpen)
      ensures !confirmed ==> requests == [] && toasts == [] && domains == old(domains) && loading == old(loading)
      ensures confirmed && reply.Failed? ==>
                && requests == [DeleteDomain(domainId)] && toasts == [ToastError("Failed to delete domain")]
                && domains == old(domains) && loading == old(loading)
      ensures confirmed && reply.Ok? ==>
                && requests == [DeleteDomain(domainId), ListDomains] && !loading
                && domains == (if listReply.Ok? then listReply.data else old(domains))
                && toasts == [ToastSuccess("Domain deleted")] + (if listReply.Ok? then [] else [FetchFailed])
    {
      if !confirmed {
        return [], [];
      }
      requests := [DeleteDomain(domainId)];
      if reply.Failed? {
        return requests, [ToastError("Failed to delete domain")];
      }
      var fetched := FetchDomains(listReply);
      requests := requests + [ListDomains];
      toasts := [ToastSuccess("Domain deleted")] + fetched;
    }
  }

  // ---------------------------------------------------------------------
  // Properties.

  /** An entry of only whitespace is refused before any request; anything else is sent. */
  lemma AddDomainChecks(text: string)
    ensures AddDomainError(text).None? <==> !AllSpace(text)
  {
    BlankIffAllSpace(text);
  }

  /** The list is refetched exactly when the backend's answer says verified. */
  lemma RefetchIffVerified(reply: Reply<VerifyReply>)
    ensures VerifyFeedback(reply).1 <==> reply.Ok? && reply.data.verified
    ensures VerifyFeedback(reply).0.ToastSuccess? <==> VerifyFeedback(reply).1
  {
  }

  /**
   * What the page shows for each outcome of `verify_domain`: the method
   * for a new verification, the backend's message when nothing proved
   * ownership, and "Verification failed" for an unknown domain.
   */
  lemma FeedbackFollowsBackend(r: VerifyResult)
    ensures r.VerifiedBy? ==> VerifyFeedback(VerifyBody(r)) == (ToastSuccess("Domain verified via " + r.verificationMethod + "!"), true)
    ensures r == NotVerified ==> VerifyFeedback(VerifyBody(r)) == (ToastError("Verification failed. Please check DNS TXT record or file."), false)
    ensures r == NotFound ==> VerifyFeedback(VerifyBody(r)) == (ToastError("Verification failed"), false)
  {
  }

  /** A domain that was already verified is reported "via undefined": that answer has no method. */
  lemma AlreadyVerifiedFeedback()
    ensures VerifyFeedback(VerifyBody(AlreadyVerified)) == (ToastSuccess("Domain verified via undefined!"), true)
  {
    assert "Domain verified via " + "undefined" + "!" == "Domain verified via undefined!";
  }

  /**
   * The instructions agree with the backend: the TXT record is the string
   * `verify_domain` searches for, so publishing it proves ownership, and the
   * file address is the one it fetches.
   */
  lemma InstructionsMatchBackend(d: Domain)
    ensures DnsRecord(d.verificationToken) == VerificationString(d.verificationToken)
    ensures DnsProves(Some([DnsRecord(d.verificationToken)]), d.verificationToken)
    ensures FileLocation(d.domain) == FileUrl(d.domain)
  {
    PublishedRecordProves([DnsRecord(d.verificationToken)], d.verificationToken, 0);
  }
}
