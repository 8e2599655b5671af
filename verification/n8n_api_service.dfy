/** The request/response core of src/services/n8nApiService.ts: the
    preference check, the single transport exchange with its error mapping,
    response normalisation, and id-like search routing.

    The HTTP library is a parameter `transport` mapping the request descriptor
    to what the exchange produced. Every operation returns a `Call`: the
    request it handed to the transport (if any) and its result, where `Err`
    stands for the `Error` the source throws. */
module N8nApiService {
  import opened Wrappers
  import opened Text
  import opened JsonData
  import opened Types
  import opened N8nRequest
  import opened N8nErrors

  /** What one exchange produced: a response (the library resolves only for
      2xx statuses), an HTTP-library error (`axios.isAxiosError`), or any
      other thrown value. */
  datatype Exchange =
    | Received(data: Json, status: int, statusText: string)
    | AxiosFailure(response: Option<ErrorResponse>, message: string)
    | OtherFailure(thrown: Thrown)

  type Transport = Request -> Exchange

  /** `N8nApiResponse` */
  datatype ApiResponse = ApiResponse(data: Json, status: int, statusText: string)

  /** One operation: the request handed to the transport, if any, and the result. */
  datatype Call<T> = Call(sent: Option<Request>, result: Result<T>)

  const ConfigurationErrorMessage := "n8n Webhook URL or API Token not configured."
  const UnexpectedErrorMessage := "An unexpected error occurred during the API request."
  const UnknownErrorMessage := "An unknown error occurred during the API request."

  /** What reading `.id` of a `null` array element throws. */
  const NullIdReadMessage := "Cannot read properties of null (reading 'id')"

  predicate PreferencesConfigured(prefs: Preferences) {
    prefs.n8nWebhookUrl != "" && prefs.apiToken != ""
  }

  /** Every failure the service reports carries a message to show. */
  predicate ReportsMessage<T>(r: Result<T>) {
    r.Err? ==> r.message != ""
  }

  /** `sent` is what the service hands to the transport for these arguments:
      nothing when a preference is missing, otherwise the built request. */
  predicate SentAsBuilt(
    sent: Option<Request>, prefs: Preferences, httpMethod: string,
    pathParams: Option<PathParams>, body: Option<Json>)
  {
    && (sent.Some? <==> PreferencesConfigured(prefs))
    && (sent.Some? ==>
          sent.value == Request(
            prefs.n8nWebhookUrl, httpMethod,
            BuildN8nHeaders(prefs.apiToken, httpMethod, body),
            BuildN8nQueryParams(pathParams), body))
  }

  /** `validateN8nPreferences`: both the URL and the token must be non-empty. */
  function ValidateN8nPreferences(prefs: Preferences): (r: Result<Preferences>)
    ensures r.Ok? <==> prefs.n8nWebhookUrl != "" && prefs.apiToken != ""
    ensures r.Ok? ==> r.value == prefs
    ensures r.Err? ==> r.message == ConfigurationErrorMessage
  {
    if prefs.n8nWebhookUrl == "" || prefs.apiToken == "" then
      Err(ConfigurationErrorMessage)
    else
      Ok(prefs)
  }

  /** The message `baseN8nApiRequest` throws for a failed exchange. */
  function TransportFailureMessage(e: Exchange): (m: string)
    requires !e.Received?
    ensures m != ""
    ensures e.AxiosFailure? ==> m == ExtractN8nErrorMessage(e.response, e.message)
    ensures e.OtherFailure? && e.thrown.ErrorInstance? && e.thrown.message != "" ==> m == e.thrown.message
    ensures e.OtherFailure? && e.thrown.ErrorInstance? && e.thrown.message == "" ==> m == UnexpectedErrorMessage
    ensures e.OtherFailure? && e.thrown.NonError? ==> m == UnknownErrorMessage
  {
    match e
    case AxiosFailure(response, message) => ExtractN8nErrorMessage(response, message)
    case OtherFailure(ErrorInstance(message)) =>
      if message != "" then message else UnexpectedErrorMessage
    case OtherFailure(NonError) => UnknownErrorMessage
  }

  /** `baseN8nApiRequest`: checks the preferences before any exchange, builds
      the request, performs exactly one exchange, and either returns the
      response unchanged or fails with a non-empty message. */
  function BaseN8nApiRequest(
    prefs: Preferences, transport: Transport, httpMethod: string,
    pathParams: Option<PathParams>, requestBody: Option<Json>): (c: Call<ApiResponse>)
    ensures SentAsBuilt(c.sent, prefs, httpMethod, pathParams, requestBody)
    ensures c.sent.None? ==> c.result == Err(ConfigurationErrorMessage)
    ensures c.sent.Some? ==> (c.result.Ok? <==> transport(c.sent.value).Received?)
    ensures c.result.Ok? ==>
              var e := transport(c.sent.value);
              c.result.value == ApiResponse(e.data, e.status, e.statusText)
    ensures c.sent.Some? && c.result.Err? ==> c.result.message == TransportFailureMessage(transport(c.sent.value))
    ensures ReportsMessage(c.result)
  {
    match ValidateN8nPreferences(prefs)
    case Err(message) => Call(None, Err(message))
    case Ok(p) =>
      var queryParams := BuildN8nQueryParams(pathParams);
      var headers := BuildN8nHeaders(p.apiToken, httpMethod, requestBody);
      var config := Request(p.n8nWebhookUrl, httpMethod, headers, queryParams, requestBody);
      var e := transport(config);
      Call(Some(config),
        if e.Received? then Ok(ApiResponse(e.data, e.status, e.statusText))
        else Err(TransportFailureMessage(e)))
  }

  // ---------------------------------------------------------------------------
  // Summaries
  // ---------------------------------------------------------------------------

  /** The "array, or a single object with an id, or nothing" reconciliation:
      an array is kept as it is, an object carrying an `id` becomes a
      one-element list, and any other value becomes the empty list. */
  function NormalizeSummaries(data: Json): (r: seq<Json>)
    ensures data.Arr? ==> r == data.items
    ensures HasKey(data, "id") ==> r == [data]
    ensures !data.Arr? && !HasKey(data, "id") ==> r == []
  {
    if data.Arr? then data.items
    else if Truthy(data) && data.Obj? && "id" in data.fields then [data]
    else []
  }

  /** Normalising an already normalised list changes nothing. */
  lemma NormalizeSummariesIdempotent(data: Json)
    ensures NormalizeSummaries(Arr(NormalizeSummaries(data))) == NormalizeSummaries(data)
  {
  }

  /** `getWorkflowSummaries`: a GET in summary mode for the given filter
      (`all` when none is given), normalised to a list. */
  function GetWorkflowSummaries(prefs: Preferences, transport: Transport, filter: Option<IncludedWorkflows>)
    : (c: Call<seq<Json>>)
    ensures SentAsBuilt(c.sent, prefs, "GET", Some(PathParams(None, Some(Summary), Some(filter.GetOr(All)))), None)
    ensures c.sent.Some? ==>
              c.sent.value.params == map["mode" := "summary", "includedWorkflows" := IncludedWorkflowsText(filter.GetOr(All))]
    ensures c.sent.Some? ==> "Content-Type" !in c.sent.value.headers
    ensures c.sent.Some? ==> (c.result.Ok? <==> transport(c.sent.value).Received?)
    ensures c.result.Ok? ==> c.sent.Some? && c.result.value == NormalizeSummaries(transport(c.sent.value).data)
    ensures c.sent.None? ==> c.result == Err(ConfigurationErrorMessage)
    ensures c.sent.Some? && !transport(c.sent.value).Received? ==>
              c.result == Err(TransportFailureMessage(transport(c.sent.value)))
    ensures ReportsMessage(c.result)
  {
    var params := PathParams(None, Some(Summary), Some(filter.GetOr(All)));
    var response := BaseN8nApiRequest(prefs, transport, "GET", Some(params), None);
    Call(response.sent,
      match response.result
      case Err(message) => Err(message)
      case Ok(r) => Ok(NormalizeSummaries(r.data)))
  }

  // ---------------------------------------------------------------------------
  // Search routing
  // ---------------------------------------------------------------------------

  /** `/^[a-zA-Z0-9]{10,}$/.test(s)`: ten or more ASCII letters or digits and
      nothing else. */
  predicate IsIdLike(s: string) {
    |s| >= 10 && forall i :: 0 <= i < |s| ==> IsAsciiAlnum(s[i])
  }

  lemma IdLikeExamples()
    ensures IsIdLike("abc123XYZ0")
    ensures !IsIdLike("abc")
    ensures !IsIdLike("my workflow")
  {
    assert "my workflow"[2] == ' ';
  }

  /** The search text is routed to the server as a workflow id. */
  predicate RoutesById(searchText: Option<string>) {
    searchText.Some? && searchText.value != "" && IsIdLike(searchText.value)
  }

  /** `searchWorkflows`: a GET in summary mode for the filter, adding the search
      text as `workflowId` exactly when it looks like an id; the response data
      is returned raw, array or object. */
  function SearchWorkflows(
    prefs: Preferences, transport: Transport,
    filter: Option<IncludedWorkflows>, searchText: Option<string>): (c: Call<Json>)
    ensures SentAsBuilt(c.sent, prefs, "GET",
              Some(PathParams(if RoutesById(searchText) then searchText else None, Some(Summary), filter)), None)
    ensures c.sent.Some? ==> "mode" in c.sent.value.params && c.sent.value.params["mode"] == "summary"
    ensures c.sent.Some? ==>
              ("workflowId" in c.sent.value.params <==> searchText.Some? && IsIdLike(searchText.value))
    ensures c.sent.Some? && "workflowId" in c.sent.value.params ==>
              c.sent.value.params["workflowId"] == searchText.value
    ensures c.sent.Some? ==> ("includedWorkflows" in c.sent.value.params <==> filter.Some?)
    ensures c.sent.Some? && filter.Some? ==>
              c.sent.value.params["includedWorkflows"] == IncludedWorkflowsText(filter.value)
    ensures c.sent.Some? ==> (c.result.Ok? <==> transport(c.sent.value).Received?)
    ensures c.result.Ok? ==> c.sent.Some? && c.result.value == transport(c.sent.value).data
    ensures c.sent.None? ==> c.result == Err(ConfigurationErrorMessage)
    ensures c.sent.Some? && !transport(c.sent.value).Received? ==>
              c.result == Err(TransportFailureMessage(transport(c.sent.value)))
    ensures ReportsMessage(c.result)
  {
    var params := PathParams(if RoutesById(searchText) then searchText else None, Some(Summary), filter);
    var response := BaseN8nApiRequest(prefs, transport, "GET", Some(params), None);
    Call(response.sent,
      match response.result
      case Err(message) => Err(message)
      case Ok(r) => Ok(r.data))
  }

  // ---------------------------------------------------------------------------
  // Full detail
  // ---------------------------------------------------------------------------

  /** `wf.id === requestedId` for a value that is not `null`. */
  predicate IdIs(v: Json, id: string) {
    HasKey(v, "id") && v.fields["id"] == Str(id)
  }

  /** `find`'s callback runs on items[..upto] without throwing and without a match. */
  predicate PassesOver(items: seq<Json>, id: string, upto: int)
    requires 0 <= upto <= |items|
  {
    forall j :: 0 <= j < upto ==> items[j] != Null && !IdIs(items[j], id)
  }

  /** What `items.find((wf) => wf.id === id)` does: return the first match,
      return `undefined`, or throw on a `null` element met before any match. */
  datatype Lookup = Found(value: Json) | NotFound | ThrewOnNull

  function FindById(items: seq<Json>, id: string, from: nat): (r: Lookup)
    requires from <= |items|
    requires PassesOver(items, id, from)
    ensures r.Found? ==>
              exists k :: from <= k < |items| && items[k] == r.value && IdIs(items[k], id) && PassesOver(items, id, k)
    ensures r.NotFound? <==> PassesOver(items, id, |items|)
    ensures r.ThrewOnNull? ==>
              exists k :: from <= k < |items| && items[k] == Null && PassesOver(items, id, k)
    decreases |items| - from
  {
    if from == |items| then NotFound
    else if items[from] == Null then ThrewOnNull
    else if IdIs(items[from], id) then Found(items[from])
    else FindById(items, id, from + 1)
  }

  /** `normalizeAndValidateWorkflowDetails`: picks the candidate (the first
      array element with the requested id, or a single object carrying an
      `id`), then keeps it only if its id is exactly the requested one. A
      mismatched record is never returned. */
  function NormalizeAndValidateWorkflowDetails(responseData: Json, requestedId: string)
    : (r: Result<Option<Json>>)
    ensures r.Ok? && r.value.Some? ==> IdIs(r.value.value, requestedId)
    ensures !Truthy(responseData) ==> r == Ok(None)
    ensures HasKey(responseData, "id") ==>
              r == Ok(if IdIs(responseData, requestedId) then Some(responseData) else None)
    ensures !responseData.Arr? && !HasKey(responseData, "id") ==> r == Ok(None)
    ensures responseData.Arr? ==>
              (r == Ok(None) <==> PassesOver(responseData.items, requestedId, |responseData.items|))
    ensures responseData.Arr? && r.Ok? && r.value.Some? ==>
              exists k :: 0 <= k < |responseData.items| && responseData.items[k] == r.value.value
                          && PassesOver(responseData.items, requestedId, k)
    ensures r.Err? ==> responseData.Arr? && r.message == NullIdReadMessage
    ensures r.Err? ==>
              exists k :: 0 <= k < |responseData.items| && responseData.items[k] == Null
                          && PassesOver(responseData.items, requestedId, k)
  {
    if !Truthy(responseData) then Ok(None)
    else
      var identified: Result<Option<Json>> :=
        if responseData.Arr? then
          match FindById(responseData.items, requestedId, 0)
          case Found(v) => Ok(Some(v))
          case NotFound => Ok(None)
          case ThrewOnNull => Err(NullIdReadMessage)
        else if responseData.Obj? && "id" in responseData.fields then Ok(Some(responseData))
        else Ok(None);
      match identified
      case Err(message) => Err(message)
      case Ok(None) => Ok(None)
      case Ok(Some(w)) => if IdIs(w, requestedId) then Ok(Some(w)) else Ok(None)
  }

  /** A single record for a different workflow is discarded, never substituted. */
  lemma MismatchedRecordDiscarded(record: Json, requestedId: string)
    requires HasKey(record, "id") && record.fields["id"] != Str(requestedId)
    ensures NormalizeAndValidateWorkflowDetails(record, requestedId) == Ok(None)
  {
  }

  /** `getWorkflowDetails`: an empty id gives "not found" without any request;
      otherwise a GET in full mode for that id, normalised and validated. */
  function GetWorkflowDetails(prefs: Preferences, transport: Transport, workflowId: string)
    : (c: Call<Option<Json>>)
    ensures workflowId == "" ==> c == Call(None, Ok(None))
    ensures workflowId != "" ==>
              SentAsBuilt(c.sent, prefs, "GET", Some(PathParams(Some(workflowId), Some(Full), None)), None)
    ensures c.sent.Some? ==> c.sent.value.params == map["mode" := "full", "workflowId" := workflowId]
    ensures workflowId != "" && c.sent.None? ==> c.result == Err(ConfigurationErrorMessage)
    ensures c.sent.Some? && !transport(c.sent.value).Received? ==>
              c.result == Err(TransportFailureMessage(transport(c.sent.value)))
    ensures c.sent.Some? && transport(c.sent.value).Received? ==>
              c.result == NormalizeAndValidateWorkflowDetails(transport(c.sent.value).data, workflowId)
    ensures c.result.Ok? && c.result.value.Some? ==> IdIs(c.result.value.value, workflowId)
    ensures ReportsMessage(c.result)
  {
    if workflowId == "" then Call(None, Ok(None))
    else
      var params := PathParams(Some(workflowId), Some(Full), None);
      var response := BaseN8nApiRequest(prefs, transport, "GET", Some(params), None);
      Call(response.sent,
        match response.result
        case Err(message) => Err(message)
        case Ok(r) => NormalizeAndValidateWorkflowDetails(r.data, workflowId))
  }

  // ---------------------------------------------------------------------------
  // Trigger
  // ---------------------------------------------------------------------------

  /** `triggerWorkflowExecution`: a POST naming the workflow, carrying `data`
      as the body (and then `Content-Type: application/json`); the response
      data is returned as it came. */
  function TriggerWorkflowExecution(prefs: Preferences, transport: Transport, workflowId: string, data: Option<Json>)
    : (c: Call<Json>)
    ensures SentAsBuilt(c.sent, prefs, "POST", Some(PathParams(Some(workflowId), None, None)), data)
    ensures c.sent.Some? ==>
              c.sent.value.params == if workflowId != "" then map["workflowId" := workflowId] else map[]
    ensures c.sent.Some? ==> ("Content-Type" in c.sent.value.headers <==> data.Some?)
    ensures c.sent.Some? ==> (c.result.Ok? <==> transport(c.sent.value).Received?)
    ensures c.result.Ok? ==> c.sent.Some? && c.result.value == transport(c.sent.value).data
    ensures c.sent.None? ==> c.result == Err(ConfigurationErrorMessage)
    ensures c.sent.Some? && !transport(c.sent.value).Received? ==>
              c.result == Err(TransportFailureMessage(transport(c.sent.value)))
    ensures ReportsMessage(c.result)
  {
    var pathParams := PathParams(Some(workflowId), None, None);
    var response := BaseN8nApiRequest(prefs, transport, "POST", Some(pathParams), data);
    Call(response.sent,
      match response.result
      case Err(message) => Err(message)
      case Ok(r) => Ok(r.data))
  }
}
