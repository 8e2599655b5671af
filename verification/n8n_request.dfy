/** Request shaping in src/services/n8nApiService.ts: the query parameters,
    the headers and the request descriptor handed to the transport. */
module N8nRequest {
  import opened Wrappers
  import opened Text
  import opened JsonData
  import opened Types

  /** The request descriptor `buildN8nAxiosConfig` assembles: its five
      arguments, field for field, so the constructor stands for that function. */
  datatype Request = Request(
    url: string,
    httpMethod: string,
    headers: map<string, string>,
    params: map<string, string>,
    data: Option<Json>)

  const BearerPrefix := "Bearer "
  const JsonContentType := "application/json"

  /** `buildN8nQueryParams`: each parameter becomes a query key only when it
      has a (non-empty) value; nothing else is ever emitted. */
  function BuildN8nQueryParams(params: Option<PathParams>): (qp: map<string, string>)
    ensures params.None? ==> qp == map[]
    ensures qp.Keys <= {"mode", "workflowId", "includedWorkflows"}
    ensures forall k :: k in qp ==> qp[k] != ""
    ensures "mode" in qp <==> params.Some? && params.value.mode.Some?
    ensures "mode" in qp ==> qp["mode"] == ModeText(params.value.mode.value)
    ensures "workflowId" in qp <==> params.Some? && TruthyText(params.value.workflowId)
    ensures "workflowId" in qp ==> qp["workflowId"] == params.value.workflowId.value
    ensures "includedWorkflows" in qp <==> params.Some? && params.value.includedWorkflows.Some?
    ensures "includedWorkflows" in qp ==>
              qp["includedWorkflows"] == IncludedWorkflowsText(params.value.includedWorkflows.value)
  {
    match params
    case None => map[]
    case Some(p) =>
      var withMode: map<string, string> :=
        if p.mode.Some? then map["mode" := ModeText(p.mode.value)] else map[];
      var withId :=
        if TruthyText(p.workflowId) then withMode["workflowId" := p.workflowId.value] else withMode;
      if p.includedWorkflows.Some? then
        withId["includedWorkflows" := IncludedWorkflowsText(p.includedWorkflows.value)]
      else
        withId
  }

  function ModeOfText(t: string): Option<Mode> {
    if t == "summary" then Some(Summary) else if t == "full" then Some(Full) else None
  }

  function IncludedWorkflowsOfText(t: string): Option<IncludedWorkflows> {
    if t == "active" then Some(Active)
    else if t == "inactive" then Some(Inactive)
    else if t == "all" then Some(All)
    else None
  }

  /** How a server reads the query string back into path parameters. */
  function ReadQueryParams(qp: map<string, string>): PathParams {
    PathParams(
      if "workflowId" in qp then Some(qp["workflowId"]) else None,
      if "mode" in qp then ModeOfText(qp["mode"]) else None,
      if "includedWorkflows" in qp then IncludedWorkflowsOfText(qp["includedWorkflows"]) else None)
  }

  /** The query string loses nothing but an empty workflow id: reading it back
      yields the parameters that were given. */
  lemma QueryParamsRoundTrip(p: PathParams)
    ensures ReadQueryParams(BuildN8nQueryParams(Some(p)))
         == PathParams(if TruthyText(p.workflowId) then p.workflowId else None, p.mode, p.includedWorkflows)
  {
    var qp := BuildN8nQueryParams(Some(p));
    if p.mode.Some? {
      assert ModeOfText(ModeText(p.mode.value)) == p.mode;
    }
    if p.includedWorkflows.Some? {
      assert IncludedWorkflowsOfText(IncludedWorkflowsText(p.includedWorkflows.value)) == p.includedWorkflows;
    }
  }

  /** The request carries a JSON body that warrants a `Content-Type` header. */
  predicate CarriesJsonBody(httpMethod: string, body: Option<Json>) {
    (Upper(httpMethod) == "POST" || Upper(httpMethod) == "PUT") && body.Some?
  }

  /** `buildN8nHeaders`: always the bearer credentials; `Content-Type:
      application/json` only for a POST or PUT (in any letter case) that has a
      body; no other header. */
  function BuildN8nHeaders(apiToken: string, httpMethod: string, body: Option<Json>): (h: map<string, string>)
    ensures h.Keys <= {"Authorization", "Content-Type"}
    ensures "Authorization" in h && h["Authorization"] == BearerPrefix + apiToken
    ensures "Content-Type" in h <==> CarriesJsonBody(httpMethod, body)
    ensures "Content-Type" in h ==> h["Content-Type"] == JsonContentType
  {
    var headers := map["Authorization" := BearerPrefix + apiToken];
    var upperMethod := Upper(httpMethod);
    if (upperMethod == "POST" || upperMethod == "PUT") && body.Some? then
      headers["Content-Type" := JsonContentType]
    else
      headers
  }

  /** The token of an `Authorization` value in the bearer scheme of section 2.1
      of RFC 6750 (`"Bearer" 1*SP b64token`), read as the client writes it. */
  function BearerToken(value: string): Option<string> {
    if StartsWith(value, BearerPrefix) then Some(value[|BearerPrefix|..]) else None
  }

  /** The `Authorization` header hands the configured token over unchanged. */
  lemma AuthorizationRoundTrip(apiToken: string, httpMethod: string, body: Option<Json>)
    ensures BearerToken(BuildN8nHeaders(apiToken, httpMethod, body)["Authorization"]) == Some(apiToken)
  {
    var v := BearerPrefix + apiToken;
    assert v[..|BearerPrefix|] == BearerPrefix;
    assert v[|BearerPrefix|..] == apiToken;
  }
}
