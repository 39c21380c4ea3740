/**
 * The alerts page, frontend/src/pages/Alerts.js: the list of the user's
 * alerts, the creation dialog with its two checks, and deletion behind a
 * confirmation. A handler that refetches the list is given the replies of
 * both of its requests.
 */
module AlertsPage {
  import opened Wrappers
  import opened Text
  import opened JsNumber
  import opened PageKit

  /** An alert as GET /alerts lists it. */
  datatype Alert = Alert(id: string, alertType: string, destination: string, threshold: int, isActive: bool)

  datatype AlertForm = AlertForm(alertType: string, destination: string, threshold: int)

  const InitialForm: AlertForm := AlertForm("email", "", 10)

  /** The requests the page sends. */
  datatype AlertsRequest = ListAlerts | CreateAlert(form: AlertForm) | DeleteAlert(alertId: string)

  /** The checks of `handleCreateAlert`, in order: the first failure's message, or none. */
  function AlertFormError(form: AlertForm): (r: Option<string>)
    ensures r.None? <==> !IsBlank(form.destination) && form.threshold >= 1
    ensures IsBlank(form.destination) ==> r == Some("Please enter a destination")
  {
    if IsBlank(form.destination) then Some("Please enter a destination")
    else if form.threshold < 1 then Some("Threshold must be at least 1")
    else None
  }

  /** `parseInt(value) || 1`: NaN and 0 both become 1. */
  function ParseThreshold(text: string): (r: int)
    ensures r != 0
    ensures ParseInt(text).None? ==> r == 1
    ensures ParseInt(text).Some? && ParseInt(text).value != 0 ==> r == ParseInt(text).value
  {
    match ParseInt(text)
    case None => 1
    case Some(n) => if n == 0 then 1 else n
  }

  const FetchFailed: Toast := ToastError("Failed to fetch alerts")

  class AlertsView {
    var alerts: seq<Alert>
    var loading: bool
    var isDialogOpen: bool
    var formData: AlertForm

    constructor ()
      ensures alerts == [] && loading && !isDialogOpen && formData == InitialForm
    {
      alerts := [];
      loading := true;
      isDialogOpen := false;
      formData := InitialForm;
    }

    /** `fetchAlerts`: the list is replaced on success; `loading` ends false either way. */
    method FetchAlerts(reply: Reply<seq<Alert>>) returns (toasts: seq<Toast>)
      modifies this
      ensures alerts == (if reply.Ok? then reply.data else old(alerts))
      ensures !loading && isDialogOpen == old(isDialogOpen) && formData == old(formData)
      ensures toasts == if reply.Ok? then [] else [FetchFailed]
    {
      loading := true;
      if reply.Ok? {
        alerts := reply.data;
        toasts := [];
      } else {
        toasts := [FetchFailed];
      }
      loading := false;
    }

    method SetDestination(text: string)
      modifies this
      ensures formData == old(formData).(destination := text)
      ensures alerts == old(alerts) && loading == old(loading) && isDialogOpen == old(isDialogOpen)
    {
      formData := formData.(destination := text);
    }

    /** `setIsDialogOpen`: the create buttons open the dialog and `onOpenChange` opens or closes it. */
    method SetDialogOpen(open: bool)
      modifies this
      ensures isDialogOpen == open
      ensures alerts == old(alerts) && loading == old(loading) && formData == old(formData)
    {
      isDialogOpen := open;
    }

    /** The alert type select's `onValueChange` ("email" or "webhook"). */
    method SetAlertType(alertType: string)
      modifies this
      ensures formData == old(formData).(alertType := alertType)
      ensures alerts == old(alerts) && loading == old(loading) && isDialogOpen == old(isDialogOpen)
    {
      formData := formData.(alertType := alertType);
    }

    /** The threshold input's `onChange`. */
    method SetThresholdInput(text: string)
      modifies this
      ensures formData == old(formData).(threshold := ParseThreshold(text))
      ensures alerts == old(alerts) && loading == old(loading) && isDialogOpen == old(isDialogOpen)
    {
      formData := formData.(threshold := ParseThreshold(text));
    }

    /**
     * `handleCreateAlert`: a failed check shows its message and sends
     * nothing; a created alert resets the form, closes the dialog and
     * refetches; a failed creation changes nothing.
     */
    method HandleCreateAlert(reply: Reply<()>, listReply: Reply<seq<Alert>>)
      returns (requests: seq<AlertsRequest>, toasts: seq<Toast>)
      modifies this
      ensures AlertFormError(old(formData)).Some? ==>
                && requests == [] && toasts == [ToastError(AlertFormError(old(formData)).value)]
                && alerts == old(alerts) && loading == old(loading)
                && isDialogOpen == old(isDialogOpen) && formData == old(formData)
      ensures AlertFormError(old(formData)).None? && reply.Failed? ==>
                && requests == [CreateAlert(old(formData))] && toasts == [ToastError("Failed to create alert")]
                && alerts == old(alerts) && loading == old(loading)
                && isDialogOpen == old(isDialogOpen) && formData == old(formData)
      ensures AlertFormError(old(formData)).None? && reply.Ok? ==>
                && requests == [CreateAlert(old(formData)), ListAlerts]
                && formData == InitialForm && !isDialogOpen && !loading
                && alerts == (if listReply.Ok? then listReply.data else old(alerts))
                && toasts == [ToastSuccess("Alert created")] + (if listReply.Ok? then [] else [FetchFailed])
    {
      var error := AlertFormError(formData);
      if error.Some? {
        return [], [ToastError(error.value)];
      }
      requests := [CreateAlert(formData)];
      if reply.Failed? {
        return requests, [ToastError("Failed to create alert")];
      }
      toasts := [ToastSuccess("Alert created")];
      formData := InitialForm;
      isDialogOpen := false;
      var fetched := FetchAlerts(listReply);
      requests := requests + [ListAlerts];
      toasts := toasts + fetched;
    }

    /**
     * `handleDeleteAlert`: a declined confirmation sends nothing; the list
     * is refetched only after a successful delete.
     */
    method HandleDeleteAlert(alertId: string, confirmed: bool, reply: Reply<()>, listReply: Reply<seq<Alert>>)
      returns (requests: seq<AlertsRequest>, toasts: seq<Toast>)
      modifies this
      ensures isDialogOpen == old(isDialogOpen) && formData == old(formData)
      ensures !confirmed ==> requests == [] && toasts == [] && alerts == old(alerts) && loading == old(loading)
      ensures confirmed && reply.Failed? ==>
                && requests == [DeleteAlert(alertId)] && toasts == [ToastError("Failed to delete alert")]
                && alerts == old(alerts) && loading == old(loading)
      ensures confirmed && reply.Ok? ==>
                && requests == [DeleteAlert(alertId), ListAlerts] && !loading
                && alerts == (if listReply.Ok? then listReply.data else old(alerts))
                && toasts == [ToastSuccess("Alert deleted")] + (if listReply.Ok? then [] else [FetchFailed])
    {
      if !confirmed {
        return [], [];
      }
      requests := [DeleteAlert(alertId)];
      if reply.Failed? {
        return requests, [ToastError("Failed to delete alert")];
      }
      var fetched := FetchAlerts(listReply);
      requests := requests + [ListAlerts];
      toasts := [ToastSuccess("Alert deleted")] + fetched;
    }
  }

  // ---------------------------------------------------------------------
  // Properties.

  /**
   * A form is sent exactly when its destination is not blank and its
   * threshold is at least 1; the destination is checked first.
   */
  lemma AlertFormChecks(form: AlertForm)
    ensures AlertFormError(form).None? <==> !IsBlank(form.destination) && form.threshold >= 1
    ensures IsBlank(form.destination) ==> AlertFormError(form) == Some("Please enter a destination")
    ensures !IsBlank(form.destination) && form.threshold < 1 ==> AlertFormError(form) == Some("Threshold must be at least 1")
  {
  }

  /** A destination of only whitespace counts as blank. */
  lemma WhitespaceDestinationRejected(form: AlertForm)
    requires AllSpace(form.destination)
    ensures AlertFormError(form) == Some("Please enter a destination")
  {
    BlankIffAllSpace(form.destination);
  }

  /** The alert type takes no part in the checks: a webhook form is refused or sent exactly as the same email form. */
  lemma AlertTypeUnchecked(form: AlertForm, alertType: string)
    ensures AlertFormError(form.(alertType := alertType)) == AlertFormError(form)
  {
  }

  /** The threshold field never holds 0: it is below 1 exactly when the text parses to a negative number. */
  lemma ThresholdNeverZero(text: string)
    ensures ParseThreshold(text) != 0
    ensures ParseThreshold(text) < 1 <==> ParseInt(text).Some? && ParseInt(text).value < 0
  {
  }

  /**
   * Typing the decimal text of a number gives that number, except that 0
   * becomes 1; a negative number passes through and is then refused.
   */
  lemma ThresholdFromNumber(n: int)
    ensures ParseThreshold(IntText(n)) == if n == 0 then 1 else n
    ensures n < 0 ==> AlertFormError(AlertForm("email", "ops@example.com", ParseThreshold(IntText(n)))).Some?
  {
    ParseIntText(n);
  }

  /** The initial form has an empty destination, so it is refused until one is typed. */
  lemma InitialFormRefused()
    ensures AlertFormError(InitialForm) == Some("Please enter a destination")
    ensures InitialForm.threshold == 10
  {
    assert Trim("") == "";
  }
}
