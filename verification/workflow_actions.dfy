/** src/logic/workflowActions.ts: the operations the commands and views call,
    each a thin orchestration over the service. None of them retries, and none
    turns a service failure into a success. */
module WorkflowActions {
  import opened Wrappers
  import opened Text
  import opened JsonData
  import opened Types
  import opened N8nRequest
  import opened N8nApiService
  import opened JsonUtils

  /** `listWorkflows`: the service's search, failures included, unchanged. */
  function ListWorkflows(
    prefs: Preferences, transport: Transport,
    filter: Option<IncludedWorkflows>, searchText: Option<string>): (c: Call<Json>)
    ensures c == SearchWorkflows(prefs, transport, filter, searchText)
  {
    SearchWorkflows(prefs, transport, filter, searchText)
  }

  /** `getWorkflowDetails`: the service's detail fetch, failures included, unchanged. */
  function GetWorkflowDetails(prefs: Preferences, transport: Transport, workflowId: string)
    : (c: Call<Option<Json>>)
    ensures c == N8nApiService.GetWorkflowDetails(prefs, transport, workflowId)
  {
    N8nApiService.GetWorkflowDetails(prefs, transport, workflowId)
  }

  function QuickTriggerMessage(workflowName: string): string {
    "Workflow \"" + workflowName + "\" was triggered successfully."
  }

  function JsonTriggerMessage(workflowName: string): string {
    "Workflow \"" + workflowName + "\" triggered successfully with JSON data."
  }

  /** `quickTriggerWorkflow`: a trigger without a body; success whenever the
      exchange succeeds, whatever the response says; a failure is passed on
      with its message unchanged. */
  function QuickTriggerWorkflow(prefs: Preferences, transport: Transport, workflowId: string, workflowName: string)
    : (c: Call<QuickTriggerActionResult>)
    ensures c.sent == TriggerWorkflowExecution(prefs, transport, workflowId, None).sent
    ensures c.sent.Some? ==> c.sent.value.data.None? && "Content-Type" !in c.sent.value.headers
    ensures c.result.Ok? <==> TriggerWorkflowExecution(prefs, transport, workflowId, None).result.Ok?
    ensures c.result.Ok? ==> c.result.value == QuickTriggerActionResult(true, QuickTriggerMessage(workflowName))
    ensures c.result.Err? ==> c.result.message == TriggerWorkflowExecution(prefs, transport, workflowId, None).result.message
  {
    var triggered := TriggerWorkflowExecution(prefs, transport, workflowId, None);
    Call(triggered.sent,
      match triggered.result
      case Err(message) => Err(message)
      case Ok(_) => Ok(QuickTriggerActionResult(true, QuickTriggerMessage(workflowName))))
  }

  /** The quick trigger does not look at the response: two transports that
      both answer, with whatever data, give the same outcome. */
  lemma QuickTriggerIgnoresResponse(
    prefs: Preferences, t1: Transport, t2: Transport, workflowId: string, workflowName: string)
    requires forall r :: t1(r).Received? && t2(r).Received?
    ensures QuickTriggerWorkflow(prefs, t1, workflowId, workflowName)
         == QuickTriggerWorkflow(prefs, t2, workflowId, workflowName)
  {
    var c1 := QuickTriggerWorkflow(prefs, t1, workflowId, workflowName);
    var c2 := QuickTriggerWorkflow(prefs, t2, workflowId, workflowName);
    if c1.sent.Some? {
      assert t1(c1.sent.value).Received? && t2(c2.sent.value).Received?;
    }
  }

  /** `triggerWorkflowWithJson`: the JSON text is checked first and a parse
      error fails the call, with exactly that error text, before any request;
      otherwise the parsed value (none for blank text) is the body, and a
      success hands back the response data for copying. */
  function TriggerWorkflowWithJson(
    prefs: Preferences, transport: Transport, parse: JsonParser,
    workflowId: string, workflowName: string, jsonDataString: string): (c: Call<TriggerActionResult>)
    ensures var input := ParseJsonInput(jsonDataString, parse);
            input.error.Some? ==> c == Call(None, Err(input.error.value))
    ensures var input := ParseJsonInput(jsonDataString, parse);
            input.error.None? ==> c.sent == TriggerWorkflowExecution(prefs, transport, workflowId, input.data).sent
    ensures IsBlank(jsonDataString) && c.sent.Some? ==>
              c.sent.value.data.None? && "Content-Type" !in c.sent.value.headers
    ensures c.result.Ok? ==>
              && c.sent.Some?
              && transport(c.sent.value).Received?
              && c.result.value == TriggerActionResult(true, JsonTriggerMessage(workflowName), Some(transport(c.sent.value).data))
    ensures var input := ParseJsonInput(jsonDataString, parse);
            input.error.None? ==>
              (c.result.Err? <==> TriggerWorkflowExecution(prefs, transport, workflowId, input.data).result.Err?)
    ensures var input := ParseJsonInput(jsonDataString, parse);
            input.error.None? && c.result.Err? ==>
              c.result.message == TriggerWorkflowExecution(prefs, transport, workflowId, input.data).result.message
  {
    var input := ParseJsonInput(jsonDataString, parse);
    if TruthyText(input.error) then
      Call(None, Err(input.error.value))
    else
      var triggered := TriggerWorkflowExecution(prefs, transport, workflowId, input.data);
      Call(triggered.sent,
        match triggered.result
        case Err(message) => Err(message)
        case Ok(apiResponseData) =>
          Ok(TriggerActionResult(
            true, JsonTriggerMessage(workflowName), Some(apiResponseData))))
  }

  /** End to end: a parsable payload is posted as the JSON body, and a
      successful answer comes back as the data to copy. */
  lemma PayloadReachesServerAndResponseComesBack(
    prefs: Preferences, transport: Transport, parse: JsonParser,
    workflowId: string, workflowName: string, jsonDataString: string, response: Json)
    requires PreferencesConfigured(prefs)
    requires !IsBlank(jsonDataString) && parse(jsonDataString).Parsed?
    requires forall r :: transport(r) == Received(response, 200, "OK")
    ensures var c := TriggerWorkflowWithJson(prefs, transport, parse, workflowId, workflowName, jsonDataString);
            && c.sent.Some?
            && c.sent.value.data == Some(parse(jsonDataString).value)
            && c.sent.value.headers["Content-Type"] == JsonContentType
            && c.result == Ok(TriggerActionResult(true, JsonTriggerMessage(workflowName), Some(response)))
  {
    var c := TriggerWorkflowWithJson(prefs, transport, parse, workflowId, workflowName, jsonDataString);
    assert Upper("POST") == "POST";
    assert c.sent.Some?;
    assert transport(c.sent.value).Received?;
  }

  /** `getWorkflowsForSelection`: every summary, whatever its active state. */
  function GetWorkflowsForSelection(prefs: Preferences, transport: Transport): (c: Call<seq<Json>>)
    ensures c == GetWorkflowSummaries(prefs, transport, Some(All))
    ensures c.sent.Some? ==> c.sent.value.params["includedWorkflows"] == "all"
  {
    GetWorkflowSummaries(prefs, transport, Some(All))
  }
}
