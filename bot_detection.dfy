/**
 * The AI-crawler classifier of the backend (`detect_bot` and its tables in
 * backend/server.py). A request is classified from its user agent and its
 * IP address by an ordered cascade: known user-agent signature, then a
 * listed IP prefix, then a headless-browser keyword.
 *
 * Confidence scores are the constants 0.0, 0.5, 0.6 and 0.9 and are kept
 * here as integer tenths.
 */
module BotDetection {
  import opened Wrappers
  import opened Text

  /** One entry of AI_BOT_SIGNATURES: the user-agent token, its provider and risk level. */
  datatype Signature = Signature(name: string, provider: string, risk: string)

  /** AI_BOT_SIGNATURES in dictionary (insertion) order, which is the order the scan follows. */
  const AiBotSignatures: seq<Signature> := [
    Signature("GPTBot", "OpenAI", "high"),
    Signature("ChatGPT-User", "OpenAI", "high"),
    Signature("Claude-Web", "Anthropic", "high"),
    Signature("ClaudeBot", "Anthropic", "high"),
    Signature("anthropic-ai", "Anthropic", "high"),
    Signature("Google-Extended", "Google", "high"),
    Signature("GoogleOther", "Google", "medium"),
    Signature("PerplexityBot", "Perplexity", "high"),
    Signature("Applebot-Extended", "Apple", "medium"),
    Signature("FacebookBot", "Meta", "medium"),
    Signature("facebookexternalhit", "Meta", "low"),
    Signature("Bytespider", "ByteDance", "high"),
    Signature("Diffbot", "Diffbot", "medium"),
    Signature("CCBot", "Common Crawl", "high"),
    Signature("cohere-ai", "Cohere", "high"),
    Signature("omgili", "Omgili", "medium"),
    Signature("YouBot", "You.com", "high"),
    Signature("anthropic", "Anthropic", "high"),
    Signature("Claude", "Anthropic", "high")
  ]

  /** AI_IP_RANGES: textual prefixes of IPv4 addresses, not numeric ranges. */
  const AiIpRanges: seq<string> := [
    "13.56.", "13.57.", "52.24.", "52.52.",
    "35.247.", "34.82.",
    "20.", "40."
  ]

  const HeadlessIndicators: seq<string> := ["headless", "phantom", "selenium", "puppeteer", "playwright"]

  const SuspiciousIp: string := "Suspicious AI IP"
  const HeadlessBrowser: string := "Headless Browser"

  /** The tuple (detected_bot, bot_provider, confidence, risk_level); confidence in tenths. */
  datatype Detection = Detection(detectedBot: Option<string>, botProvider: Option<string>,
                                 confidence: nat, riskLevel: string)

  const Undetected: Detection := Detection(None, None, 0, "unknown")

  /** Whether signature `sig` occurs, case-insensitively, in the lower-cased user agent. */
  predicate SignatureMatches(uaLower: string, sig: Signature) {
    Contains(uaLower, Lower(sig.name))
  }

  /** Index of the first signature of `table`, from position `from` on, that matches. */
  function FirstMatchFrom(uaLower: string, table: seq<Signature>, from: nat): (r: Option<nat>)
    requires from <= |table|
    ensures r.Some? ==> from <= r.value < |table| && SignatureMatches(uaLower, table[r.value])
    ensures forall j :: from <= j < |table| && (r.None? || j < r.value) ==> !SignatureMatches(uaLower, table[j])
    decreases |table| - from
  {
    if from == |table| then None
    else if SignatureMatches(uaLower, table[from]) then Some(from)
    else FirstMatchFrom(uaLower, table, from + 1)
  }

  function FirstSignature(uaLower: string): Option<nat> {
    FirstMatchFrom(uaLower, AiBotSignatures, 0)
  }

  predicate HasAiIpPrefix(ip: string) {
    exists k :: 0 <= k < |AiIpRanges| && StartsWith(ip, AiIpRanges[k])
  }

  predicate HasHeadlessIndicator(uaLower: string) {
    exists k :: 0 <= k < |HeadlessIndicators| && Contains(uaLower, HeadlessIndicators[k])
  }

  /** The classification `detect_bot` computes, stated as a cascade of cases. */
  function Classify(userAgent: string, ip: string): (r: Detection)
    ensures r.detectedBot.None? ==> r == Undetected
    ensures r.botProvider.Some? <==> r.confidence == 9
    ensures r.detectedBot.Some? ==> r.confidence >= 5
  {
    var uaLower := Lower(userAgent);
    match FirstSignature(uaLower)
    case Some(k) =>
      var sig := AiBotSignatures[k];
      Detection(Some(sig.name), Some(sig.provider), 9, sig.risk)
    case None => Fallback(uaLower, ip)
  }

  /** The part of the cascade that applies when no signature matched. */
  function Fallback(uaLower: string, ip: string): (r: Detection)
    ensures r.botProvider.None? && r.confidence < 9
  {
    if HasAiIpPrefix(ip) then Detection(Some(SuspiciousIp), None, 6, "medium")
    else if HasHeadlessIndicator(uaLower) then Detection(Some(HeadlessBrowser), None, 5, "medium")
    else Undetected
  }

  /**
   * `detect_bot` as the source runs it: four locals start at "nothing
   * detected" and are reassigned by the signature scan, then (only while no
   * bot name is set) by the IP-prefix scan, then by the headless check,
   * which applies only while the confidence is still zero.
   */
  method DetectBot(userAgent: string, ip: string) returns (d: Detection)
    ensures d == Classify(userAgent, ip)
  {
    var detectedBot: Option<string> := None;
    var botProvider: Option<string> := None;
    var confidence: nat := 0;
    var riskLevel := "unknown";
    var uaLower := Lower(userAgent);

    var hit := ScanSignatures(uaLower);
    if hit.Some? {
      var sig := AiBotSignatures[hit.value];
      detectedBot, botProvider, confidence, riskLevel := Some(sig.name), Some(sig.provider), 9, sig.risk;
    }
    if hit.Some? {
      SignatureNamesNonEmpty();
    }

    if !Truthy(detectedBot) {
      var listed := AnyAiIpPrefix(ip);
      if listed {
        confidence, riskLevel, detectedBot := 6, "medium", Some(SuspiciousIp);
      }
    }

    var anyHeadless := AnyHeadlessIndicator(uaLower);
    if anyHeadless {
      if confidence == 0 {
        confidence, riskLevel, detectedBot := 5, "medium", Some(HeadlessBrowser);
      }
    }
    d := Detection(detectedBot, botProvider, confidence, riskLevel);
  }

  /** The scan over AI_BOT_SIGNATURES, which stops at the first signature found in the user agent. */
  method ScanSignatures(uaLower: string) returns (hit: Option<nat>)
    ensures hit == FirstSignature(uaLower)
  {
    hit := None;
    for i := 0 to |AiBotSignatures|
      invariant FirstMatchFrom(uaLower, AiBotSignatures, i) == FirstSignature(uaLower)
    {
      var sig := AiBotSignatures[i];
      if Contains(uaLower, Lower(sig.name)) {
        hit := Some(i);
        return;
      }
    }
  }

  /** The scan over AI_IP_RANGES, which stops at the first prefix of the address. */
  method AnyAiIpPrefix(ip: string) returns (found: bool)
    ensures found <==> HasAiIpPrefix(ip)
  {
    found := false;
    for i := 0 to |AiIpRanges|
      invariant !found ==> forall j :: 0 <= j < i ==> !StartsWith(ip, AiIpRanges[j])
      invariant found ==> HasAiIpPrefix(ip)
    {
      if StartsWith(ip, AiIpRanges[i]) {
        found := true;
        break;
      }
    }
  }

  /** `any(indicator in user_agent_lower for indicator in headless_indicators)`. */
  method AnyHeadlessIndicator(uaLower: string) returns (found: bool)
    ensures found <==> HasHeadlessIndicator(uaLower)
  {
    found := false;
    for i := 0 to |HeadlessIndicators|
      invariant found <==> exists j :: 0 <= j < i && Contains(uaLower, HeadlessIndicators[j])
    {
      if Contains(uaLower, HeadlessIndicators[i]) {
        found := true;
      }
    }
  }

  lemma SignatureNamesNonEmpty()
    ensures forall k :: 0 <= k < |AiBotSignatures| ==> AiBotSignatures[k].name != ""
  {
  }

  // ---------------------------------------------------------------------
  // The cascade, one rule at a time.

  /** The first signature (in table order) that occurs in the user agent decides the result. */
  lemma SignatureWins(userAgent: string, ip: string, k: nat)
    requires k < |AiBotSignatures|
    requires SignatureMatches(Lower(userAgent), AiBotSignatures[k])
    requires forall j :: 0 <= j < k ==> !SignatureMatches(Lower(userAgent), AiBotSignatures[j])
    ensures Classify(userAgent, ip)
         == Detection(Some(AiBotSignatures[k].name), Some(AiBotSignatures[k].provider), 9, AiBotSignatures[k].risk)
  {
    var r := FirstSignature(Lower(userAgent));
    assert r.Some? && r.value == k;
  }

  /** Without a signature, a listed IP prefix yields "Suspicious AI IP" at 0.6, medium risk. */
  lemma IpPrefixRule(userAgent: string, ip: string, k: nat)
    requires forall j :: 0 <= j < |AiBotSignatures| ==> !SignatureMatches(Lower(userAgent), AiBotSignatures[j])
    requires k < |AiIpRanges| && StartsWith(ip, AiIpRanges[k])
    ensures Classify(userAgent, ip) == Detection(Some(SuspiciousIp), None, 6, "medium")
  {
  }

  /** Headless keywords count only when neither a signature nor an IP prefix matched. */
  lemma HeadlessRule(userAgent: string, ip: string, k: nat)
    requires forall j :: 0 <= j < |AiBotSignatures| ==> !SignatureMatches(Lower(userAgent), AiBotSignatures[j])
    requires forall j :: 0 <= j < |AiIpRanges| ==> !StartsWith(ip, AiIpRanges[j])
    requires k < |HeadlessIndicators| && Contains(Lower(userAgent), HeadlessIndicators[k])
    ensures Classify(userAgent, ip) == Detection(Some(HeadlessBrowser), None, 5, "medium")
  {
  }

  /** Nothing matched: (None, None, 0.0, "unknown"). */
  lemma NoMatchRule(userAgent: string, ip: string)
    requires forall j :: 0 <= j < |AiBotSignatures| ==> !SignatureMatches(Lower(userAgent), AiBotSignatures[j])
    requires forall j :: 0 <= j < |AiIpRanges| ==> !StartsWith(ip, AiIpRanges[j])
    requires forall j :: 0 <= j < |HeadlessIndicators| ==> !Contains(Lower(userAgent), HeadlessIndicators[j])
    ensures Classify(userAgent, ip) == Undetected
  {
  }

  /** detected_bot is None exactly when the confidence is zero; the provider is set only by a signature. */
  lemma DetectionShape(userAgent: string, ip: string)
    ensures var d := Classify(userAgent, ip);
            && (d.detectedBot.None? <==> d.confidence == 0)
            && (d.botProvider.Some? <==> exists j :: 0 <= j < |AiBotSignatures| && SignatureMatches(Lower(userAgent), AiBotSignatures[j]))
            && (d.confidence == 0 || d.confidence == 5 || d.confidence == 6 || d.confidence == 9)
            && (d.detectedBot.Some? ==> d.detectedBot.value != "")
  {
    var uaLower := Lower(userAgent);
    var r := FirstSignature(uaLower);
    if r.None? {
      assert forall j :: 0 <= j < |AiBotSignatures| ==> !SignatureMatches(uaLower, AiBotSignatures[j]);
    } else {
      SignatureNamesNonEmpty();
    }
  }

  // ---------------------------------------------------------------------
  // The three user agents the backend's integration test sends from 192.168.1.100.

  const TestIp: string := "192.168.1.100"
  // The literals are written in pieces so that the verifier can reason about each piece.
  const PlainBrowserUa: string := "Mozilla/5.0 " + "(Windows NT " + "10.0; Win64;" + " x64) AppleW" + "ebKit/537.36"
  const GptBotUa: string := "Mozilla/5.0 " + "(compatible; " + "GPTBot/1.0; " + "+https://openai.com/gptbot)"
  const ClaudeBotUa: string := "ClaudeBot/1.0 " + "(+https://www." + "anthropic.com/" + "claude-bot)"

  lemma TestIpHasNoAiPrefix()
    ensures forall j :: 0 <= j < |AiIpRanges| ==> !StartsWith(TestIp, AiIpRanges[j])
  {
    assert TestIp[0] == '1' && TestIp[1] == '9';
  }

  /** Every signature name has, lower-cased, one of the letters c, g, y, f or a hyphen. */
  lemma SignatureKeyChar(j: nat) returns (c: char)
    requires j < |AiBotSignatures|
    ensures c in Lower(AiBotSignatures[j].name)
    ensures c == 'c' || c == 'g' || c == 'y' || c == 'f' || c == '-'
  {
    var i: nat;
    if j == 0 { c, i := 'g', 0; }
    else if j == 4 || j == 17 { c, i := 'c', 8; }
    else if j == 7 { c, i := 'y', 9; }
    else if j == 8 { c, i := '-', 8; }
    else if j == 9 || j == 10 { c, i := 'f', 0; }
    else if j == 11 { c, i := 'y', 1; }
    else if j == 12 { c, i := 'f', 2; }
    else if j == 15 { c, i := 'g', 2; }
    else if j == 16 { c, i := 'y', 0; }
    else if j == 5 || j == 6 { c, i := 'g', 0; }
    else { c, i := 'c', 0; }
    LowerHasAt(AiBotSignatures[j].name, i, c);
  }

  // The desktop user agent has none of the letters c, g, h, u, y, f in either case and no hyphen;
  // one lemma per character keeps each proof small.
  lemma PlainBrowserHasNoSmallC() ensures 'c' !in PlainBrowserUa {}
  lemma PlainBrowserHasNoCapitalC() ensures 'C' !in PlainBrowserUa {}
  lemma PlainBrowserHasNoSmallG() ensures 'g' !in PlainBrowserUa {}
  lemma PlainBrowserHasNoCapitalG() ensures 'G' !in PlainBrowserUa {}
  lemma PlainBrowserHasNoSmallH() ensures 'h' !in PlainBrowserUa {}
  lemma PlainBrowserHasNoCapitalH() ensures 'H' !in PlainBrowserUa {}
  lemma PlainBrowserHasNoSmallU() ensures 'u' !in PlainBrowserUa {}
  lemma PlainBrowserHasNoCapitalU() ensures 'U' !in PlainBrowserUa {}
  lemma PlainBrowserHasNoSmallY() ensures 'y' !in PlainBrowserUa {}
  lemma PlainBrowserHasNoCapitalY() ensures 'Y' !in PlainBrowserUa {}
  lemma PlainBrowserHasNoSmallF() ensures 'f' !in PlainBrowserUa {}
  lemma PlainBrowserHasNoCapitalF() ensures 'F' !in PlainBrowserUa {}
  lemma PlainBrowserHasNoHyphen() ensures '-' !in PlainBrowserUa {}

  lemma PlainBrowserLacksC() ensures 'c' !in Lower(PlainBrowserUa)
  {
    PlainBrowserHasNoSmallC();
    PlainBrowserHasNoCapitalC();
    AbsentAfterLower(PlainBrowserUa, 'c');
  }
  lemma PlainBrowserLacksG() ensures 'g' !in Lower(PlainBrowserUa)
  {
    PlainBrowserHasNoSmallG();
    PlainBrowserHasNoCapitalG();
    AbsentAfterLower(PlainBrowserUa, 'g');
  }
  lemma PlainBrowserLacksH() ensures 'h' !in Lower(PlainBrowserUa)
  {
    PlainBrowserHasNoSmallH();
    PlainBrowserHasNoCapitalH();
    AbsentAfterLower(PlainBrowserUa, 'h');
  }
  lemma PlainBrowserLacksU() ensures 'u' !in Lower(PlainBrowserUa)
  {
    PlainBrowserHasNoSmallU();
    PlainBrowserHasNoCapitalU();
    AbsentAfterLower(PlainBrowserUa, 'u');
  }
  lemma PlainBrowserLacksY() ensures 'y' !in Lower(PlainBrowserUa)
  {
    PlainBrowserHasNoSmallY();
    PlainBrowserHasNoCapitalY();
    AbsentAfterLower(PlainBrowserUa, 'y');
  }
  lemma PlainBrowserLacksF() ensures 'f' !in Lower(PlainBrowserUa)
  {
    PlainBrowserHasNoSmallF();
    PlainBrowserHasNoCapitalF();
    AbsentAfterLower(PlainBrowserUa, 'f');
  }
  lemma PlainBrowserLacksHyphen() ensures '-' !in Lower(PlainBrowserUa)
  {
    PlainBrowserHasNoHyphen();
    AbsentAfterLower(PlainBrowserUa, '-');
  }

  lemma PlainBrowserLacks()
    ensures var lower := Lower(PlainBrowserUa);
            && 'c' !in lower && 'g' !in lower && 'h' !in lower && 'u' !in lower
            && 'y' !in lower && 'f' !in lower && '-' !in lower
  {
    PlainBrowserLacksC();
    PlainBrowserLacksG();
    PlainBrowserLacksH();
    PlainBrowserLacksU();
    PlainBrowserLacksY();
    PlainBrowserLacksF();
    PlainBrowserLacksHyphen();
  }

  lemma PlainBrowserNoSignature()
    ensures forall j :: 0 <= j < |AiBotSignatures| ==> !SignatureMatches(Lower(PlainBrowserUa), AiBotSignatures[j])
  {
    var lower := Lower(PlainBrowserUa);
    PlainBrowserLacks();
    forall j | 0 <= j < |AiBotSignatures|
      ensures !SignatureMatches(lower, AiBotSignatures[j])
    {
      var c := SignatureKeyChar(j);
      AbsentCharNotContained(lower, Lower(AiBotSignatures[j].name), c);
    }
  }

  lemma PlainBrowserNotHeadless()
    ensures forall j :: 0 <= j < |HeadlessIndicators| ==> !Contains(Lower(PlainBrowserUa), HeadlessIndicators[j])
  {
    var lower := Lower(PlainBrowserUa);
    PlainBrowserLacks();
    forall j | 0 <= j < |HeadlessIndicators|
      ensures !Contains(lower, HeadlessIndicators[j])
    {
      var i := if j == 0 then 0 else if j == 1 then 1 else if j == 2 then 6 else if j == 3 then 1 else 3;
      var c := HeadlessIndicators[j][i];
      assert c == 'h' || c == 'u' || c == 'y';
      AbsentCharNotContained(lower, HeadlessIndicators[j], c);
    }
  }

  /** A plain desktop browser from a private address is not flagged. */
  lemma PlainBrowserUndetected()
    ensures Classify(PlainBrowserUa, TestIp) == Undetected
  {
    PlainBrowserNoSignature();
    PlainBrowserNotHeadless();
    TestIpHasNoAiPrefix();
    NoMatchRule(PlainBrowserUa, TestIp);
  }

  /** The GPTBot crawler is reported as GPTBot by OpenAI, high risk, confidence 0.9. */
  lemma GptBotDetected()
    ensures Classify(GptBotUa, TestIp) == Detection(Some("GPTBot"), Some("OpenAI"), 9, "high")
  {
    var lower := Lower(GptBotUa);
    assert lower[25..31] == "gptbot";
    ContainsAt(lower, Lower("GPTBot"), 25);
    SignatureWins(GptBotUa, TestIp, 0);
  }

  lemma ClaudeBotUaHasNoSmallG() ensures 'g' !in ClaudeBotUa {}
  lemma ClaudeBotUaHasNoCapitalG() ensures 'G' !in ClaudeBotUa {}

  lemma ClaudeBotUaLacksG() ensures 'g' !in Lower(ClaudeBotUa)
  {
    ClaudeBotUaHasNoSmallG();
    ClaudeBotUaHasNoCapitalG();
    AbsentAfterLower(ClaudeBotUa, 'g');
  }

  lemma ClaudeBotUaNamesClaudeBot() ensures SignatureMatches(Lower(ClaudeBotUa), AiBotSignatures[3])
  {
    var lower := Lower(ClaudeBotUa);
    assert lower[0..9] == "claudebot";
    ContainsAt(lower, Lower("ClaudeBot"), 0);
  }

  // The ClaudeBot agent split just before its one hyphen.
  const ClaudeUaHead: string := "ClaudeBot/1.0 " + "(+https://www." + "anthropic.com/" + "claude"
  const ClaudeUaTail: string := "-bot)"

  lemma ClaudeUaSplit() ensures ClaudeBotUa == ClaudeUaHead + ClaudeUaTail {}
  lemma ClaudeUaHeadHasNoHyphen() ensures '-' !in ClaudeUaHead {}

  /** The lower-cased agent has its only hyphen at position 48, followed by 'b'. */
  lemma LowerUaHyphens()
    ensures |Lower(ClaudeBotUa)| == 53
    ensures forall k :: 0 <= k < 53 && k != 48 ==> Lower(ClaudeBotUa)[k] != '-'
    ensures Lower(ClaudeBotUa)[48] == '-' && Lower(ClaudeBotUa)[49] == 'b'
  {
    ClaudeUaSplit();
    ClaudeUaHeadHasNoHyphen();
    var lower := Lower(ClaudeBotUa);
    forall k | 0 <= k < 53 && k != 48 ensures lower[k] != '-' {
      if k < 48 {
        assert ClaudeBotUa[k] == ClaudeUaHead[k];
      } else {
        assert ClaudeBotUa[k] == ClaudeUaTail[k - 48];
      }
    }
  }

  /** A needle with its hyphen at offset 6 does not occur where the one hyphen is followed by another letter than the needle's. */
  lemma HyphenOnlyAt(hay: string, needle: string, p: nat)
    requires |needle| == 10 && needle[6] == '-' && p + 1 < |hay| && hay[p + 1] != needle[7]
    requires forall k :: 0 <= k < |hay| && k != p ==> hay[k] != '-'
    ensures !Contains(hay, needle)
  {
    ContainsIff(hay, needle);
    forall i | 0 <= i && i + |needle| <= |hay|
      ensures !OccursAt(hay, needle, i)
    {
      assert hay[i..i + |needle|][6] == hay[i + 6];
      assert hay[i..i + |needle|][7] == hay[i + 7];
      assert hay[i + 6] != '-' || hay[i + 7] != needle[7];
    }
  }

  lemma ClaudeWebLower()
    ensures Lower(AiBotSignatures[2].name) == "claude-web"
  {
    assert AiBotSignatures[2].name == "Claude-Web";
  }

  lemma ClaudeBotUaNotClaudeWeb()
    ensures !SignatureMatches(Lower(ClaudeBotUa), AiBotSignatures[2])
  {
    LowerUaHyphens();
    ClaudeWebLower();
    HyphenOnlyAt(Lower(ClaudeBotUa), Lower(AiBotSignatures[2].name), 48);
  }

  /** None of the three signatures before ClaudeBot in the table occurs in the ClaudeBot agent. */
  lemma ClaudeBotUaNoEarlierSignature()
    ensures forall j :: 0 <= j < 3 ==> !SignatureMatches(Lower(ClaudeBotUa), AiBotSignatures[j])
  {
    var lower := Lower(ClaudeBotUa);
    ClaudeBotUaLacksG();
    LowerHasAt("GPTBot", 0, 'g');
    LowerHasAt("ChatGPT-User", 4, 'g');
    AbsentCharNotContained(lower, Lower("GPTBot"), 'g');
    AbsentCharNotContained(lower, Lower("ChatGPT-User"), 'g');
    ClaudeBotUaNotClaudeWeb();
  }

  /** The ClaudeBot crawler is reported as ClaudeBot by Anthropic, high risk, confidence 0.9. */
  lemma ClaudeBotDetected()
    ensures Classify(ClaudeBotUa, TestIp) == Detection(Some("ClaudeBot"), Some("Anthropic"), 9, "high")
  {
    ClaudeBotUaNamesClaudeBot();
    ClaudeBotUaNoEarlierSignature();
    SignatureWins(ClaudeBotUa, TestIp, 3);
  }
}
