/**
 * What the pages share: the toasts they raise, the outcome of an awaited
 * request, and the `error.response?.data?.detail || fallback` message.
 */
module PageKit {
  import opened Wrappers
  import opened Text
  import opened BotDetection

  datatype Toast = ToastSuccess(message: string) | ToastError(message: string)

  /**
   * The outcome of one awaited axios request: the response body, or a
   * rejection carrying the server's `detail` when there was one.
   */
  datatype Reply<T> = Ok(data: T) | Failed(detail: Option<string>)

  /** `error.response?.data?.detail || fallback`. */
  function ErrorMessage(detail: Option<string>, fallback: string): (r: string)
    ensures Truthy(detail) ==> r == detail.value
    ensures !Truthy(detail) ==> r == fallback
  {
    if Truthy(detail) then detail.value else fallback
  }

  /** The colour family the pages give a risk level: the three `switch`/ternary chains of Dashboard.js, TrafficLogs.js and SuperAdmin.js. */
  datatype Tone = Red | Yellow | Green | Gray

  function RiskTone(risk: string): Tone {
    if risk == "high" then Red
    else if risk == "medium" then Yellow
    else if risk == "low" then Green
    else Gray
  }

  lemma SignatureRisksKnown(k: nat)
    requires k < |AiBotSignatures|
    ensures AiBotSignatures[k].risk in {"high", "medium", "low"}
  {
  }

  /**
   * A stored log is shown gray exactly when the backend detected nothing:
   * every detection carries "high", "medium" or "low", and undetected
   * traffic carries "unknown".
   */
  lemma GrayIffUndetected(userAgent: string, ip: string)
    ensures var d := Classify(userAgent, ip);
            RiskTone(d.riskLevel) == Gray <==> d.detectedBot.None?
  {
    var r := FirstSignature(Lower(userAgent));
    if r.Some? {
      SignatureRisksKnown(r.value);
    }
  }
}
