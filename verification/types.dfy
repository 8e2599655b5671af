/** The records the client exchanges with its callers and views, mirroring
    src/types.ts. The view logic trusts these shapes, exactly as the TypeScript
    code trusts its static types. */
module Types {
  import opened Wrappers
  import opened JsonData

  /** The two extension preferences: the endpoint URL and the API token. */
  datatype Preferences = Preferences(n8nWebhookUrl: string, apiToken: string)

  /** The `mode` query parameter: which representation the server returns. */
  datatype Mode = Summary | Full

  /** The `includedWorkflows` query parameter: which workflows the server lists. */
  datatype IncludedWorkflows = Active | Inactive | All

  function ModeText(m: Mode): string {
    match m
    case Summary => "summary"
    case Full => "full"
  }

  function IncludedWorkflowsText(f: IncludedWorkflows): string {
    match f
    case Active => "active"
    case Inactive => "inactive"
    case All => "all"
  }

  /** `N8nApiPathParams`: every member is optional. */
  datatype PathParams = PathParams(
    workflowId: Option<string>,
    mode: Option<Mode>,
    includedWorkflows: Option<IncludedWorkflows>)

  datatype WorkflowSummary = WorkflowSummary(
    id: string,
    name: string,
    createdAt: string,
    updatedAt: string,
    active: bool)

  datatype WorkflowTag = WorkflowTag(createdAt: string, updatedAt: string, id: string, name: string)

  datatype WorkflowNode = WorkflowNode(
    parameters: map<string, Json>,
    id: string,
    name: string,
    nodeType: string,
    typeVersion: real,
    position: Option<(real, real)>,
    webhookId: Option<string>)

  datatype ConnectionTarget = ConnectionTarget(node: string, connectionType: string, index: int)

  /** One named output of a node (`main` or another name): a list of target
      lists, or `undefined`. */
  datatype ConnectionOutput = ConnectionOutput(
    outputName: string,
    targets: Option<seq<seq<ConnectionTarget>>>)

  /** The entry of `WorkflowConnections` for one source node. */
  datatype NodeConnections = NodeConnections(sourceNodeId: string, outputs: seq<ConnectionOutput>)

  /** `WorkflowFull`. `nodes` and `connections` are optional because the
      detail view reads them with optional chaining. */
  datatype WorkflowFull = WorkflowFull(
    id: string,
    name: string,
    createdAt: string,
    updatedAt: string,
    active: bool,
    nodes: Option<seq<WorkflowNode>>,
    connections: Option<seq<NodeConnections>>,
    settings: Option<Json>,
    staticData: Option<Json>,
    meta: Option<Json>,
    pinData: Option<Json>,
    versionId: Option<string>,
    tags: Option<seq<WorkflowTag>>)

  datatype TriggerActionResult = TriggerActionResult(
    success: bool,
    message: string,
    responseDataToCopy: Option<Json>)

  datatype QuickTriggerActionResult = QuickTriggerActionResult(success: bool, message: string)
}
