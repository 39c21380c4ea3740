/**
 * The traffic log page, frontend/src/pages/TrafficLogs.js: the logged
 * requests, optionally narrowed to one domain, their risk badges, and the
 * export of the same selection as CSV or JSON.
 */
module TrafficLogsPage {
  import opened Wrappers
  import opened Text
  import opened PageKit
  import opened Records
  import opened BotDetection
  import DomainsPage

  datatype TrafficRequest = ListDomains | GetLogs(query: string) | GetExport(query: string, responseType: ResponseType)

  /** The axios `responseType` of the export request. */
  datatype ResponseType = Blob | JsonBody

  const FetchLogsFailed: Toast := ToastError("Failed to fetch logs")

  /** The query of `fetchLogs`; the empty selection is "All Domains". */
  function LogsQuery(selected: string): (r: string)
    ensures r == "" <==> selected == ""
    ensures selected != "" ==> |r| > |selected| && r[|r| - |selected|..] == selected
  {
    if selected != "" then "?domain_id=" + selected else ""
  }

  /** The query of `handleExport`. */
  function ExportQuery(selected: string, format: string): (r: string)
    ensures |r| > |"format=" + format| && r[0] == '?'
    ensures r[|r| - |"format=" + format|..] == "format=" + format
    ensures selected != "" ==> |LogsQuery(selected)| < |r| && r[..|LogsQuery(selected)|] == LogsQuery(selected)
  {
    if selected != "" then "?domain_id=" + selected + "&format=" + format else "?format=" + format
  }

  function ExportResponseType(format: string): ResponseType {
    if format == "csv" then Blob else JsonBody
  }

  /** The name of the downloaded file: every format other than csv takes the JSON branch. */
  function ExportFileName(format: string): string {
    if format == "csv" then "traffic_logs.csv" else "traffic_logs.json"
  }

  /** `getRiskColor` of the risk badge. */
  function RiskBadge(risk: string): (r: string)
    ensures r == GrayBadge <==> RiskTone(risk) == Gray
  {
    var tone := RiskTone(risk);
    if tone == Gray then GrayBadge else ColouredBadge(tone)
  }

  const GrayBadge: string := "bg-gray-500/20 text-gray-400 border-gray-500/30"

  /** The red, yellow and green badges. */
  function ColouredBadge(t: Tone): (r: string)
    requires t != Gray
    ensures r != GrayBadge
  {
    match t
    case Red => "bg-red-500/20 text-red-400 border-red-500/30"
    case Yellow => "bg-yellow-500/20 text-yellow-400 border-yellow-500/30"
    case Green => "bg-green-500/20 text-green-400 border-green-500/30"
  }

  class TrafficLogsView {
    var logs: seq<LogRecord>
    var domains: seq<DomainsPage.Domain>
    var selectedDomain: string
    var loading: bool

    constructor ()
      ensures logs == [] && domains == [] && selectedDomain == "" && loading
    {
      logs := [];
      domains := [];
      selectedDomain := "";
      loading := true;
    }

    /** `fetchLogs` for the current selection; `loading` ends false either way. */
    method FetchLogs(reply: Reply<seq<LogRecord>>) returns (requests: seq<TrafficRequest>, toasts: seq<Toast>)
      modifies this
      ensures requests == [GetLogs(LogsQuery(selectedDomain))]
      ensures logs == (if reply.Ok? then reply.data else old(logs))
      ensures toasts == if reply.Ok? then [] else [FetchLogsFailed]
      ensures !loading && domains == old(domains) && selectedDomain == old(selectedDomain)
    {
      loading := true;
      requests := [GetLogs(LogsQuery(selectedDomain))];
      if reply.Ok? {
        logs := reply.data;
        toasts := [];
      } else {
        toasts := [FetchLogsFailed];
      }
      loading := false;
    }

    /**
     * Mounting runs both effects: the first fetches the domains and the
     * logs, the second, on the initial selection, fetches the logs again.
     * The replies are applied in the order of the requests.
     */
    method Mount(domainsReply: Reply<seq<DomainsPage.Domain>>, logsReply: Reply<seq<LogRecord>>, logsAgain: Reply<seq<LogRecord>>)
      returns (requests: seq<TrafficRequest>, toasts: seq<Toast>)
      modifies this
      ensures requests == [ListDomains, GetLogs(LogsQuery(old(selectedDomain))), GetLogs(LogsQuery(old(selectedDomain)))]
      ensures domains == (if domainsReply.Ok? then domainsReply.data else old(domains))
      ensures logs == (if logsAgain.Ok? then logsAgain.data else if logsReply.Ok? then logsReply.data else old(logs))
      ensures toasts == (if domainsReply.Ok? then [] else [ToastError("Failed to fetch domains")])
                        + (if logsReply.Ok? then [] else [FetchLogsFailed])
                        + (if logsAgain.Ok? then [] else [FetchLogsFailed])
      ensures !loading && selectedDomain == old(selectedDomain)
    {
      if domainsReply.Ok? {
        domains := domainsReply.data;
        toasts := [];
      } else {
        toasts := [ToastError("Failed to fetch domains")];
      }
      var r1, t1 := FetchLogs(logsReply);
      var r2, t2 := FetchLogs(logsAgain);
      requests := [ListDomains] + r1 + r2;
      toasts := toasts + t1 + t2;
    }

    /** The filter's `onChange`: the selection effect refetches the logs when the value changed. */
    method SelectDomain(id: string, reply: Reply<seq<LogRecord>>) returns (requests: seq<TrafficRequest>, toasts: seq<Toast>)
      modifies this
      ensures selectedDomain == id && domains == old(domains)
      ensures id != old(selectedDomain) ==>
                && requests == [GetLogs(LogsQuery(id))] && !loading
                && logs == (if reply.Ok? then reply.data else old(logs))
                && toasts == (if reply.Ok? then [] else [FetchLogsFailed])
      ensures id == old(selectedDomain) ==> requests == [] && toasts == [] && logs == old(logs) && loading == old(loading)
    {
      var before := selectedDomain;
      selectedDomain := id;
      if id != before {
        requests, toasts := FetchLogs(reply);
      } else {
        requests, toasts := [], [];
      }
    }

    /**
     * `handleExport(format)`: one request for the current selection, then
     * the file to download and a success toast, or only an error toast.
     * The page state is not touched.
     */
    method HandleExport(format: string, reply: Reply<()>)
      returns (request: TrafficRequest, download: Option<string>, toasts: seq<Toast>)
      ensures request == GetExport(ExportQuery(selectedDomain, format), ExportResponseType(format))
      ensures reply.Ok? ==> download == Some(ExportFileName(format)) && toasts == [ToastSuccess("Exported as " + Upper(format))]
      ensures reply.Failed? ==> download == None && toasts == [ToastError("Export failed")]
    {
      var params := if selectedDomain != "" then "?domain_id=" + selectedDomain + "&format=" + format else "?format=" + format;
      request := GetExport(params, if format == "csv" then Blob else JsonBody);
      if reply.Failed? {
        return request, None, [ToastError("Export failed")];
      }
      download := Some(if format == "csv" then "traffic_logs.csv" else "traffic_logs.json");
      toasts := [ToastSuccess("Exported as " + Upper(format))];
    }
  }

  // ---------------------------------------------------------------------
  // Properties.

  /**
   * The export covers exactly what the list shows: its query is the list's
   * query with the format appended as one more parameter.
   */
  lemma ExportMatchesList(selected: string, format: string)
    ensures ExportQuery(selected, format) ==
            (if LogsQuery(selected) == "" then "?" else LogsQuery(selected) + "&") + "format=" + format
    ensures LogsQuery(selected) == "" <==> selected == ""
  {
    if selected != "" {
      assert ("?domain_id=" + selected)[0] == '?';
      assert LogsQuery(selected) != "";
    }
  }

  /** A CSV export downloads traffic_logs.csv as a blob; every other format downloads traffic_logs.json from a JSON body. */
  lemma ExportFormats(format: string)
    ensures ExportFileName(format) == "traffic_logs.csv" <==> format == "csv"
    ensures ExportResponseType(format) == Blob <==> format == "csv"
    ensures ExportFileName(format) == "traffic_logs.json" <==> ExportResponseType(format) == JsonBody
  {
  }

  /** The success toast names the format in upper case letter for letter. */
  lemma ExportToastNamesFormat(format: string)
    ensures var m := "Exported as " + Upper(format);
            |m| == 12 + |format| && forall i :: 0 <= i < |format| ==> m[12 + i] == UpperChar(format[i])
  {
  }

  /**
   * A logged request gets the gray badge when `detect_bot` found no bot in
   * it, and the badge of its risk level's colour when it found one.
   */
  lemma GrayBadgeIffUndetected(userAgent: string, ip: string)
    ensures var d := Classify(userAgent, ip);
            && (d.detectedBot.None? ==> RiskBadge(d.riskLevel) == GrayBadge)
            && (d.detectedBot.Some? ==> RiskTone(d.riskLevel) != Gray && RiskBadge(d.riskLevel) == ColouredBadge(RiskTone(d.riskLevel)))
  {
    GrayIffUndetected(userAgent, ip);
  }
}
