/** The configuration flow (custom_components/freebox_home/config_flow.py):
    a zeroconf discovery is accepted only from a Freebox Delta announcing
    its API domain and port; the user step sets the flow's unique id from the
    host; the link step and the permission step open the gateway client
    through get_api and turn the exception they meet into the error key the
    form shows. */
module ConfigFlow {
  import opened Values
  import Router

  const UNIQUE_ID_SUFFIX: string := "_freebox_home"
  /** The zeroconf device type every Freebox Delta announces a prefix of. */
  const DELTA_DEVICE_TYPE: string := "FreeboxServer7"

  /** The answer a step returns to the host's flow manager. An AbortFlow
      exception, raised by the step or by the unique-id check, becomes Abort. */
  datatype FlowResult =
    | ShowForm(stepId: string, errors: map<string, string>)
    | CreateEntry(title: Option<string>, host: Option<string>, port: Option<Value>)
    | Abort(reason: string)
    | Failed(error: PyError)

  /** The host and port the user step receives. */
  datatype UserInput = UserInput(host: string, port: Value)

  /** The unique id a flow for `host` claims. */
  function FlowUniqueId(host: string): (r: string)
    ensures StartsWith(r, host) && r[|host|..] == UNIQUE_ID_SUFFIX
  {
    host + UNIQUE_ID_SUFFIX
  }

  /** Two hosts never claim the same unique id. */
  lemma FlowUniqueIdInjective(a: string, b: string)
    requires FlowUniqueId(a) == FlowUniqueId(b)
    ensures a == b
  {
    var ra, rb := FlowUniqueId(a), FlowUniqueId(b);
    assert |a| == |ra| - |UNIQUE_ID_SUFFIX| == |b|;
    assert a == ra[..|a|] && b == rb[..|b|];
  }

  /** Why a zeroconf discovery is aborted, if it is: the three checks of
      async_step_zeroconf in their order. */
  function ZeroconfAbort(props: map<string, string>): (r: Option<string>)
    ensures r.None? <==>
      && "device_type" in props && StartsWith(props["device_type"], DELTA_DEVICE_TYPE)
      && "api_domain" in props && "https_port" in props
    ensures "device_type" !in props ==> r == Some("Invalid discovery info")
    ensures "device_type" in props && !StartsWith(props["device_type"], DELTA_DEVICE_TYPE) ==>
      r == Some("Invalid Freebox discovered. This Addon is only working with the Freebox Delta")
  {
    if "device_type" !in props then Some("Invalid discovery info")
    else if !StartsWith(props["device_type"], DELTA_DEVICE_TYPE) then
      Some("Invalid Freebox discovered. This Addon is only working with the Freebox Delta")
    else if "api_domain" !in props || "https_port" !in props then
      Some("Invalid discovery info (missing domain or port)")
    else None
  }

  /** The link step's error key for the exception it caught. */
  function LinkErrorKey(e: PyError): (r: string)
    ensures r == "register_failed" <==> e == AuthorizationError
    ensures r == "cannot_connect" <==> e == HttpRequestError
    ensures r == "unknown" <==> e != AuthorizationError && e != HttpRequestError
  {
    match e
    case AuthorizationError => "register_failed"
    case HttpRequestError => "cannot_connect"
    case _ => "unknown"
  }

  /** async_step_link. `submitted` is false on the first call (no user input);
      `answers` are the gateway's answers to get_api, and `later` the error,
      if any, raised by the config read and close that follow it. */
  function LinkStep(submitted: bool, answers: Router.OpenAnswers, later: Option<PyError>): (r: FlowResult)
    ensures !submitted ==> r == ShowForm("link", map[])
    ensures submitted ==>
      var api := Router.GetApi(0, answers).raised;
      && (r == ShowForm("permission", map[]) <==> api.None? && later.None?)
      && (api.Some? ==> r == ShowForm("link", map["base" := LinkErrorKey(api.value)]))
      && (api.None? && later.Some? ==> r == ShowForm("link", map["base" := LinkErrorKey(later.value)]))
  {
    if !submitted then ShowForm("link", map[])
    else
      var api := Router.GetApi(0, answers).raised;
      var error := if api.Some? then api else later;
      if error.None? then ShowForm("permission", map[])
      else ShowForm("link", map["base" := LinkErrorKey(error.value)])
  }

  /** The link form reports "register_failed" from get_api exactly when the
      gateway refused authorisation twice: a single refusal is absorbed by
      get_api's retry. */
  lemma LinkRegisterFailedIff(answers: Router.OpenAnswers)
    ensures LinkStep(true, answers, None) == ShowForm("link", map["base" := "register_failed"]) <==>
      answers.first == Router.Refused(AuthorizationError) && answers.afterRetry == Router.Refused(AuthorizationError)
  {
    Router.GetApiFirstCall(answers);
    var api := Router.GetApi(0, answers).raised;
    if api.Some? {
      assert LinkStep(true, answers, None).errors["base"] == LinkErrorKey(api.value);
    }
    if answers.first.Refused? && answers.first.error != AuthorizationError {
      assert api == Some(answers.first.error);
    }
  }

  /** async_step_permission, given the gateway's answers to get_api and the
      error, if any, of the node fetch. When get_api raises, `fbx` is never
      bound and the `finally` clause's `fbx.close()` raises UnboundLocalError,
      which replaces the handled error. */
  function PermissionStep(host: Option<string>, port: Option<Value>,
                          answers: Router.OpenAnswers, fetch: Option<PyError>): (r: FlowResult)
    ensures Router.GetApi(0, answers).raised.Some? ==> r == Failed(UnboundLocalError)
    ensures r.CreateEntry? <==> Router.GetApi(0, answers).raised.None? && fetch.None?
    ensures r.CreateEntry? ==> r.title == host && r.host == host && r.port == port
    ensures r.ShowForm? ==> r == ShowForm("permission", map["base" := "unknown"])
  {
    if Router.GetApi(0, answers).raised.Some? then Failed(UnboundLocalError)
    else if fetch.None? then CreateEntry(host, host, port)
    else ShowForm("permission", map["base" := "unknown"])
  }

  /** Every error the permission step shows is "unknown", insufficient
      permission included, and a missing permission on get_api's side never
      reaches the form at all. */
  lemma PermissionErrorsAreUnknown(host: Option<string>, port: Option<Value>, answers: Router.OpenAnswers)
    ensures PermissionStep(host, port, answers, Some(InsufficientPermissionsError)) ==
      if Router.GetApi(0, answers).raised.None? then ShowForm("permission", map["base" := "unknown"])
      else Failed(UnboundLocalError)
    ensures answers.first == Router.Refused(InsufficientPermissionsError) ==>
      PermissionStep(host, port, answers, None) == Failed(UnboundLocalError)
  {
    if answers.first == Router.Refused(InsufficientPermissionsError) {
      Router.GetApiPermissionNotRetried(0, answers);
    }
  }

  /** The flow handler: its host and port, and the unique id it claimed. */
  class FreeboxFlowHandler {
    var host: Option<string>
    var port: Option<Value>
    var uniqueId: Option<string>

    constructor ()
      ensures host.None? && port.None? && uniqueId.None?
    {
      host := None;
      port := None;
      uniqueId := None;
    }

    /** async_step_user. `configured` holds the unique ids of the entries the
        host already has; a configured id aborts the flow, otherwise the link
        step runs without input and shows its form. */
    method StepUser(input: Option<UserInput>, configured: set<string>) returns (r: FlowResult)
      modifies this
      ensures input.None? ==>
        r == ShowForm("user", map[])
        && host == old(host) && port == old(port) && uniqueId == old(uniqueId)
      ensures input.Some? ==>
        && host == Some(input.value.host) && port == Some(input.value.port)
        && uniqueId == Some(FlowUniqueId(input.value.host))
        && r == if FlowUniqueId(input.value.host) in configured then Abort("already_configured")
                else ShowForm("link", map[])
    {
      if input.None? {
        return ShowForm("user", map[]);
      }
      host := Some(input.value.host);
      port := Some(input.value.port);
      var id := FlowUniqueId(input.value.host);
      uniqueId := Some(id);
      if id in configured {
        return Abort("already_configured");
      }
      r := ShowForm("link", map[]);
    }

    /** async_step_import only delegates to the user step. */
    method StepImport(input: Option<UserInput>, configured: set<string>) returns (r: FlowResult)
      modifies this
      ensures input.None? ==>
        r == ShowForm("user", map[])
        && host == old(host) && port == old(port) && uniqueId == old(uniqueId)
      ensures input.Some? ==>
        && host == Some(input.value.host) && port == Some(input.value.port)
        && uniqueId == Some(FlowUniqueId(input.value.host))
        && r == if FlowUniqueId(input.value.host) in configured then Abort("already_configured")
                else ShowForm("link", map[])
    {
      r := StepUser(input, configured);
    }

    /** async_step_zeroconf over the announced properties. Host and port are
        assigned once the device type passed, even when one of them is
        missing and the flow then aborts. */
    method StepZeroconf(props: map<string, string>, configured: set<string>) returns (r: FlowResult)
      modifies this
      ensures ZeroconfAbort(props).Some? ==> r == Abort(ZeroconfAbort(props).value)
      ensures "device_type" in props && StartsWith(props["device_type"], DELTA_DEVICE_TYPE) ==>
        && host == (if "api_domain" in props then Some(props["api_domain"]) else None)
        && port == (if "https_port" in props then Some(VStr(props["https_port"])) else None)
      ensures !("device_type" in props && StartsWith(props["device_type"], DELTA_DEVICE_TYPE)) ==>
        host == old(host) && port == old(port)
      ensures ZeroconfAbort(props).Some? ==> uniqueId == old(uniqueId)
      ensures ZeroconfAbort(props).None? ==>
        && uniqueId == Some(FlowUniqueId(props["api_domain"]))
        && r == if FlowUniqueId(props["api_domain"]) in configured then Abort("already_configured")
                else ShowForm("link", map[])
    {
      if "device_type" !in props {
        return Abort("Invalid discovery info");
      }
      if !StartsWith(props["device_type"], DELTA_DEVICE_TYPE) {
        return Abort("Invalid Freebox discovered. This Addon is only working with the Freebox Delta");
      }
      host := if "api_domain" in props then Some(props["api_domain"]) else None;
      port := if "https_port" in props then Some(VStr(props["https_port"])) else None;
      if host.None? || port.None? {
        return Abort("Invalid discovery info (missing domain or port)");
      }
      r := StepUser(Some(UserInput(host.value, port.value)), configured);
    }
  }
}
