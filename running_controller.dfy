/**
 * Request dispatch of the MCP server (mcp/app/controllers/running_controller.py)
 * over the request and response records of mcp/app/protocols/mcp_protocol.py.
 * The backend calls are inputs (they are modelled in BackendProvider); the
 * analysis is AiProvider's, with the agent run as an input.
 */
module RunningController {
  import opened Wrappers
  import opened Json
  import AiProvider

  /** `MCPRequest`; its optional `context` is never read and is left out. */
  datatype McpRequest = McpRequest(action: string, parameters: Object)

  /** `MCPResponse`; `metadata` is never set by the controller and is left out. */
  datatype McpResponse = McpResponse(status: string, data: Option<Object>, error: Option<string>)

  /** The awaited backend calls, given the `user_id` parameter: the data or the message raised. */
  datatype Backend = Backend(activities: Value -> Result<Value, string>, monthly: Value -> Result<Value, string>)

  /** A successful response carrying `value` under `key`. */
  function Success(key: string, value: Value): McpResponse {
    McpResponse("success", Some(map[key := value]), None)
  }

  /** The response for an exception with message `message`. */
  function Failure(message: string): McpResponse {
    McpResponse("error", None, Some(message))
  }

  /** `_handle_get_activities`: the response, or the message of what it raised. */
  function HandleGetActivities(request: McpRequest, backend: Backend): Result<McpResponse, string> {
    var userId := Get(request.parameters, "user_id");
    if !Truthy(userId) then Err("user_id is required")
    else
      match backend.activities(userId)
      case Ok(activities) => Ok(Success("activities", activities))
      case Err(message) => Err(message)
  }

  /** `_handle_get_monthly_summary`: as above, with the monthly summary. */
  function HandleGetMonthlySummary(request: McpRequest, backend: Backend): Result<McpResponse, string> {
    var userId := Get(request.parameters, "user_id");
    if !Truthy(userId) then Err("user_id is required")
    else
      match backend.monthly(userId)
      case Ok(summary) => Ok(Success("summary", summary))
      case Err(message) => Err(message)
  }

  /** The error `analyze_activity(user_id, query, comments)` raises: the call lacks the `laps` argument. */
  const MissingLaps: string := "AIProvider.analyze_activity() missing 1 required positional argument: 'laps'"

  /**
   * `_handle_analyze_activity` as written: it catches everything itself; once
   * the parameters are present, the call with three arguments raises a
   * TypeError before the agent runs.
   */
  function HandleAnalyzeActivityAsWritten(request: McpRequest): McpResponse {
    var userId := Get(request.parameters, "user_id");
    var query := Get(request.parameters, "query");
    if !Truthy(userId) || !Truthy(query) then Failure("user_id and query are required")
    else Failure(MissingLaps)
  }

  /** As written, no request ever gets an analysis: every analyze request is answered with an error. */
  lemma AnalyzeActivityAlwaysFails(request: McpRequest)
    ensures HandleAnalyzeActivityAsWritten(request).status == "error"
    ensures HandleAnalyzeActivityAsWritten(request).data.None?
    ensures Truthy(Get(request.parameters, "user_id")) && Truthy(Get(request.parameters, "query")) ==>
      HandleAnalyzeActivityAsWritten(request).error == Some(MissingLaps)
  {
  }

  /**
   * `_handle_analyze_activity` with the laps passed on
   * (`request.parameters.get("laps")`): the analysis, or an error response
   * for whatever the agent raised. `agent` is the agent run.
   */
  function HandleAnalyzeActivity(request: McpRequest, agent: AiProvider.AgentRun): McpResponse {
    var userId := Get(request.parameters, "user_id");
    var query := Get(request.parameters, "query");
    if !Truthy(userId) || !Truthy(query) then Failure("user_id and query are required")
    else
      match AiProvider.AnalyzeActivity(userId, agent)
      case Ok(analysis) => Success("analysis", analysis)
      case Err(message) => Failure(message)
  }

  /**
   * `handle_request` around the response the analyze handler gives: the
   * three actions dispatched, anything raised turned into an error response.
   */
  function Dispatched(request: McpRequest, backend: Backend, analyzed: McpResponse): McpResponse {
    var handled :=
      if request.action == "get_running_activities" then HandleGetActivities(request, backend)
      else if request.action == "get_monthly_summary" then HandleGetMonthlySummary(request, backend)
      else if request.action == "analyze_activity" then Ok(analyzed)
      else Err("Unknown action: " + request.action);
    match handled
    case Ok(response) => response
    case Err(message) => Failure(message)
  }

  /** `handle_request` as written: "analyze_activity" reaches the three-argument call. */
  function HandleRequest(request: McpRequest, backend: Backend): McpResponse {
    Dispatched(request, backend, HandleAnalyzeActivityAsWritten(request))
  }

  /** `handle_request` with the corrected analyze handler, which passes the laps on. */
  function HandleRequestCorrected(request: McpRequest, backend: Backend, agent: AiProvider.AgentRun): McpResponse {
    Dispatched(request, backend, HandleAnalyzeActivity(request, agent))
  }

  /** The discrepancy on one request: with the agent answering, the request as written still fails. */
  lemma AnalyzeActivityDiscrepancy(backend: Backend)
    ensures var request := McpRequest("analyze_activity", map["user_id" := JInt(1), "query" := JStr("q")]);
      var agent := AiProvider.Answered(map["output" := JStr("ok")]);
      && HandleRequest(request, backend) == Failure(MissingLaps)
      && HandleRequestCorrected(request, backend, agent) == Success("analysis", AiProvider.Shaped("analysis", JInt(1), agent.response))
  {
  }

  /**
   * Every request is answered, never raised, as written and once corrected:
   * either "success" with one data entry and no error, or "error" with a
   * message and no data.
   */
  lemma HandleRequestAnswers(request: McpRequest, backend: Backend, agent: AiProvider.AgentRun)
    ensures forall r | r in {HandleRequest(request, backend), HandleRequestCorrected(request, backend, agent)} ::
      || (r.status == "success" && r.error.None? && r.data.Some? && |r.data.value| == 1)
      || (r.status == "error" && r.error.Some? && r.data.None?)
  {
  }

  /** An action other than the three is refused by name. */
  lemma UnknownAction(request: McpRequest, backend: Backend, agent: AiProvider.AgentRun)
    requires request.action !in {"get_running_activities", "get_monthly_summary", "analyze_activity"}
    ensures HandleRequest(request, backend) == Failure("Unknown action: " + request.action)
    ensures HandleRequestCorrected(request, backend, agent) == HandleRequest(request, backend)
  {
  }

  /**
   * The two data actions: a falsy `user_id` is refused; otherwise the
   * backend's data comes back under "activities" or "summary", and a backend
   * failure becomes an error response with its message. The correction
   * does not touch them.
   */
  lemma DataActions(request: McpRequest, backend: Backend, agent: AiProvider.AgentRun)
    requires request.action == "get_running_activities" || request.action == "get_monthly_summary"
    ensures var userId := Get(request.parameters, "user_id");
      var call := if request.action == "get_running_activities" then backend.activities(userId) else backend.monthly(userId);
      var key := if request.action == "get_running_activities" then "activities" else "summary";
      && (!Truthy(userId) ==> HandleRequest(request, backend) == Failure("user_id is required"))
      && (Truthy(userId) && call.Ok? ==> HandleRequest(request, backend) == Success(key, call.value))
      && (Truthy(userId) && call.Err? ==> HandleRequest(request, backend) == Failure(call.error))
    ensures HandleRequestCorrected(request, backend, agent) == HandleRequest(request, backend)
  {
  }

  /** As written, an analyze request is answered by the failing handler: an error, with no data. */
  lemma AnalyzeRequestFails(request: McpRequest, backend: Backend)
    requires request.action == "analyze_activity"
    ensures HandleRequest(request, backend) == HandleAnalyzeActivityAsWritten(request)
    ensures HandleRequest(request, backend).status == "error" && HandleRequest(request, backend).data.None?
  {
  }

  /**
   * The analyze action once corrected: a falsy `user_id` or `query` is
   * refused with no data; otherwise the agent's answer is shaped under
   * "analysis" and its failure becomes an error response with its message.
   */
  lemma AnalyzeAction(request: McpRequest, backend: Backend, agent: AiProvider.AgentRun)
    requires request.action == "analyze_activity"
    ensures var userId := Get(request.parameters, "user_id");
      var query := Get(request.parameters, "query");
      && (!Truthy(userId) || !Truthy(query) ==>
            HandleRequestCorrected(request, backend, agent) == McpResponse("error", None, Some("user_id and query are required")))
      && (Truthy(userId) && Truthy(query) && agent.Answered? ==>
            HandleRequestCorrected(request, backend, agent) == Success("analysis", AiProvider.Shaped("analysis", userId, agent.response)))
      && (Truthy(userId) && Truthy(query) && agent.Failed? ==>
            HandleRequestCorrected(request, backend, agent) == Failure(agent.message))
  {
  }
}
