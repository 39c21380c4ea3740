/**
 * Domain ownership verification (`verify_domain` in backend/server.py) and
 * the two proofs of ownership the frontend offers for it (Domains.js): a
 * DNS TXT record and a file under /.well-known. The DNS lookup and the
 * HTTP fetch are inputs: `None` stands for a lookup or fetch that raised.
 */
module DomainVerification {
  import opened Wrappers
  import opened Text
  import opened Records

  /** The reply of `requests.get(file_url, timeout=5)`. */
  datatype HttpReply = HttpReply(statusCode: int, text: string)

  /** The JSON answer of POST /domains/{id}/verify; `NotFound` is the 404. */
  datatype VerifyResult =
    | NotFound
    | AlreadyVerified
    | VerifiedBy(verificationMethod: string)
    | NotVerified

  const TxtPrefix: string := "aibot-detect="
  const WellKnownPath: string := "/.well-known/aibot-detect.txt"

  /** `f"aibot-detect={token}"`: the string searched for in the TXT records. */
  function VerificationString(token: string): (r: string)
    ensures |r| == |TxtPrefix| + |token| && r[|TxtPrefix|..] == token
  {
    TxtPrefix + token
  }

  /** `f"https://{domain}/.well-known/aibot-detect.txt"`. */
  function FileUrl(domain: string): string {
    "https://" + domain + WellKnownPath
  }

  /** Some TXT string contains the verification string. */
  predicate DnsProves(txtStrings: Option<seq<string>>, token: string) {
    txtStrings.Some? && exists i :: 0 <= i < |txtStrings.value| && Contains(txtStrings.value[i], VerificationString(token))
  }

  /** The file answered 200 and its body contains the bare token. */
  predicate FileProves(reply: Option<HttpReply>, token: string) {
    reply.Some? && reply.value.statusCode == 200 && Contains(reply.value.text, token)
  }

  /** `find_one({"id": domain_id, "user_id": user_id})`: the index of the first such domain. */
  function FindOwned(domains: seq<DomainRecord>, domainId: string, userId: string): (r: Option<nat>)
    ensures r.Some? ==> r.value < |domains| && domains[r.value].id == domainId && domains[r.value].userId == userId
    ensures r.None? <==> forall i :: 0 <= i < |domains| ==> !(domains[i].id == domainId && domains[i].userId == userId)
  {
    if domains == [] then None
    else if domains[0].id == domainId && domains[0].userId == userId then Some(0)
    else
      match FindOwned(domains[1..], domainId, userId)
      case None => None
      case Some(k) => Some(k + 1)
  }

  /** `update_one({"id": domain_id}, {"$set": {"is_verified": True, "verified_at": now}})` on the first domain with that id. */
  function MarkVerified(domains: seq<DomainRecord>, domainId: string, now: int): (r: seq<DomainRecord>)
    ensures |r| == |domains|
  {
    if domains == [] then []
    else if domains[0].id == domainId then [domains[0].(isVerified := true, verifiedAt := Some(now))] + domains[1..]
    else [domains[0]] + MarkVerified(domains[1..], domainId, now)
  }

  /**
   * `verify_domain`: 404 for a domain the user does not own, an early
   * return for one already verified, else DNS first, then the file; a
   * successful proof marks the domain verified at `now`.
   */
  function VerifyDomain(domains: seq<DomainRecord>, domainId: string, userId: string,
                        txtStrings: Option<seq<string>>, fileReply: Option<HttpReply>, now: int)
    : (r: (VerifyResult, seq<DomainRecord>))
    ensures |r.1| == |domains|
    ensures !r.0.VerifiedBy? ==> r.1 == domains
    ensures r.0.VerifiedBy? ==> r.0.verificationMethod in {"DNS", "FILE"}
    ensures r.0 == NotFound <==> forall i :: 0 <= i < |domains| ==> !(domains[i].id == domainId && domains[i].userId == userId)
  {
    match FindOwned(domains, domainId, userId)
    case None => (NotFound, domains)
    case Some(k) =>
      var domain := domains[k];
      if domain.isVerified then (AlreadyVerified, domains)
      else if DnsProves(txtStrings, domain.verificationToken) then (VerifiedBy("DNS"), MarkVerified(domains, domainId, now))
      else if FileProves(fileReply, domain.verificationToken) then (VerifiedBy("FILE"), MarkVerified(domains, domainId, now))
      else (NotVerified, domains)
  }

  // ---------------------------------------------------------------------
  // Properties.

  /** Marking changes only the first domain with the id, and only its two verification fields. */
  lemma {:induction false} MarkVerifiedOnly(domains: seq<DomainRecord>, domainId: string, now: int, k: nat)
    requires k < |domains| && domains[k].id == domainId
    requires forall j :: 0 <= j < k ==> domains[j].id != domainId
    ensures var r := MarkVerified(domains, domainId, now);
            && r[k] == domains[k].(isVerified := true, verifiedAt := Some(now))
            && forall j :: 0 <= j < |domains| && j != k ==> r[j] == domains[j]
  {
    if k > 0 {
      MarkVerifiedOnly(domains[1..], domainId, now, k - 1);
      var r := MarkVerified(domains, domainId, now);
      forall j | 0 < j < |domains| ensures r[j] == MarkVerified(domains[1..], domainId, now)[j - 1] { }
    }
  }

  /** Verifying an already-verified domain answers verified and writes nothing, whatever DNS and the file say. */
  lemma AlreadyVerifiedIsNoOp(domains: seq<DomainRecord>, domainId: string, userId: string,
                              txtStrings: Option<seq<string>>, fileReply: Option<HttpReply>, now: int, k: nat)
    requires k < |domains| && domains[k].id == domainId && domains[k].userId == userId && domains[k].isVerified
    requires forall j :: 0 <= j < k ==> !(domains[j].id == domainId && domains[j].userId == userId)
    ensures VerifyDomain(domains, domainId, userId, txtStrings, fileReply, now) == (AlreadyVerified, domains)
  {
    FindOwnedFirst(domains, domainId, userId, k);
  }

  lemma {:induction false} FindOwnedFirst(domains: seq<DomainRecord>, domainId: string, userId: string, k: nat)
    requires k < |domains| && domains[k].id == domainId && domains[k].userId == userId
    requires forall j :: 0 <= j < k ==> !(domains[j].id == domainId && domains[j].userId == userId)
    ensures FindOwned(domains, domainId, userId) == Some(k)
  {
    if k > 0 {
      FindOwnedFirst(domains[1..], domainId, userId, k - 1);
    }
  }

  /**
   * The outcome of a verification of an owned, unverified domain: verified
   * by DNS exactly when a TXT string holds the record, else by file exactly
   * when the file proves it, else not verified with nothing written.
   */
  lemma VerifyOutcome(domains: seq<DomainRecord>, domainId: string, userId: string,
                      txtStrings: Option<seq<string>>, fileReply: Option<HttpReply>, now: int, k: nat)
    requires k < |domains| && domains[k].id == domainId && domains[k].userId == userId && !domains[k].isVerified
    requires forall j :: 0 <= j < k ==> domains[j].id != domainId
    ensures var (res, after) := VerifyDomain(domains, domainId, userId, txtStrings, fileReply, now);
            var token := domains[k].verificationToken;
            && (res == VerifiedBy("DNS") <==> DnsProves(txtStrings, token))
            && (res == VerifiedBy("FILE") <==> !DnsProves(txtStrings, token) && FileProves(fileReply, token))
            && (res == NotVerified <==> !DnsProves(txtStrings, token) && !FileProves(fileReply, token))
            && (res.VerifiedBy? ==> after[k].isVerified && after[k].verifiedAt == Some(now)
                                    && forall j :: 0 <= j < |domains| && j != k ==> after[j] == domains[j])
            && (res == NotVerified ==> after == domains)
  {
    FindOwnedFirst(domains, domainId, userId, k);
    MarkVerifiedOnly(domains, domainId, now, k);
  }

  /** Publishing the TXT record the frontend shows, "aibot-detect=" plus the token, proves ownership by DNS. */
  lemma PublishedRecordProves(txtStrings: seq<string>, token: string, i: nat)
    requires i < |txtStrings| && txtStrings[i] == TxtPrefix + token
    ensures DnsProves(Some(txtStrings), token)
  {
    ContainsAt(txtStrings[i], VerificationString(token), 0);
  }

  /** A file served with status 200 whose body is exactly the token proves ownership. */
  lemma PublishedFileProves(token: string)
    ensures FileProves(Some(HttpReply(200, token)), token)
  {
    ContainsAt(token, token, 0);
  }

  /** The file is looked for at the https URL of the domain, under /.well-known. */
  lemma FileUrlShape(domain: string)
    ensures var url := FileUrl(domain);
            && StartsWith(url, "https://")
            && url[8..8 + |domain|] == domain
            && url[8 + |domain|..] == WellKnownPath
  {
  }
}
