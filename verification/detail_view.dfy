/** The logic of the detail view in src/views/WorkflowDetailView.tsx: the
    empty-id guard of its fetch, the markdown and title it shows, and the node
    and connection counts of its metadata panel. */
module DetailView {
  import opened Wrappers
  import opened Text
  import opened Types

  // ---------------------------------------------------------------------------
  // Fetching
  // ---------------------------------------------------------------------------

  /** What the view holds and reports after its fetch: the workflow (or none),
      the loading flag, the id it asked the service for, and the error toast. */
  datatype DetailLoad = DetailLoad(
    workflow: Option<WorkflowFull>,
    isLoading: bool,
    requested: Option<string>,
    errorToast: Option<(string, string)>)

  const NoIdToastTitle := "Error Displaying Workflow"
  const NoIdToastMessage := "No Workflow ID was provided to the detail view."
  const FetchFailedTitlePrefix := "Failed to fetch details for "

  /** The service's detail fetch as the view sees it. */
  type DetailFetch = string -> Result<Option<WorkflowFull>>

  /** `fetchDetails`: an empty id ends the load at once with no workflow and
      no request; otherwise the fetched workflow is shown, and a failure shows
      none and names the workflow in its toast. Loading always ends. */
  function FetchDetails(workflowId: string, initialName: Option<string>, fetch: DetailFetch): (d: DetailLoad)
    ensures !d.isLoading
    ensures workflowId == "" ==> d == DetailLoad(None, false, None, Some((NoIdToastTitle, NoIdToastMessage)))
    ensures workflowId != "" ==> d.requested == Some(workflowId)
    ensures workflowId != "" && fetch(workflowId).Ok? ==> d.workflow == fetch(workflowId).value && d.errorToast.None?
    ensures workflowId != "" && fetch(workflowId).Err? ==>
              && d.workflow.None?
              && d.errorToast == Some((FetchFailedTitlePrefix + OrElse(initialName, workflowId), fetch(workflowId).message))
  {
    if workflowId == "" then
      DetailLoad(None, false, None, Some((NoIdToastTitle, NoIdToastMessage)))
    else
      match fetch(workflowId)
      case Ok(fetchedWorkflow) => DetailLoad(fetchedWorkflow, false, Some(workflowId), None)
      case Err(message) =>
        DetailLoad(None, false, Some(workflowId),
          Some((FetchFailedTitlePrefix + OrElse(initialName, workflowId), message)))
  }

  /** The guard does not depend on the service: with an empty id, every fetch
      function gives the same view. */
  lemma EmptyIdNeverFetches(initialName: Option<string>, f1: DetailFetch, f2: DetailFetch)
    ensures FetchDetails("", initialName, f1) == FetchDetails("", initialName, f2)
  {
  }

  // ---------------------------------------------------------------------------
  // Markdown and title
  // ---------------------------------------------------------------------------

  const LoadingPrefix := "Loading details for "
  const LoadingIdPrefix := "workflow ID: "
  const ErrorMarkdownPrefix := "# Error\n\nDetails for workflow ID `"
  const ErrorMarkdownSuffix := "` could not be retrieved or found. Please check the ID or your connection."
  const HeadingPrefix := "# "

  /** `markdownContent`: the loading text while loading, the error text when
      no workflow was loaded, and otherwise the workflow's name as a heading. */
  function MarkdownContent(
    isLoading: bool, workflow: Option<WorkflowFull>, workflowId: string, initialName: Option<string>): (md: string)
    ensures isLoading ==> md == LoadingPrefix + OrElse(initialName, LoadingIdPrefix + workflowId) + "..."
    ensures !isLoading && workflow.None? ==> md == ErrorMarkdownPrefix + workflowId + ErrorMarkdownSuffix
    ensures !isLoading && workflow.Some? ==> StartsWith(md, HeadingPrefix) && md[|HeadingPrefix|..] == workflow.value.name
  {
    if isLoading then
      LoadingPrefix + OrElse(initialName, LoadingIdPrefix + workflowId) + "..."
    else if workflow.None? then
      ErrorMarkdownPrefix + workflowId + ErrorMarkdownSuffix
    else
      var md := HeadingPrefix + workflow.value.name;
      assert md[..|HeadingPrefix|] == HeadingPrefix;
      md
  }

  /** Whatever the state, the markdown names what it is about: the loading
      text the initial name or the id, the error text the id, and the loaded
      text the workflow's name. */
  lemma MarkdownNamesSubject(
    isLoading: bool, workflow: Option<WorkflowFull>, workflowId: string, initialName: Option<string>)
    ensures var md := MarkdownContent(isLoading, workflow, workflowId, initialName);
            && (isLoading && TruthyText(initialName) ==> Contains(md, initialName.value))
            && (isLoading && !TruthyText(initialName) ==> Contains(md, workflowId))
            && (!isLoading && workflow.None? ==> Contains(md, workflowId))
            && (!isLoading && workflow.Some? ==> Contains(md, workflow.value.name))
  {
    var md := MarkdownContent(isLoading, workflow, workflowId, initialName);
    if isLoading {
      if TruthyText(initialName) {
        ContainsInfix(LoadingPrefix, initialName.value, "...");
      } else {
        assert md == LoadingPrefix + LoadingIdPrefix + workflowId + "...";
        assert md == (LoadingPrefix + LoadingIdPrefix) + workflowId + "...";
        ContainsInfix(LoadingPrefix + LoadingIdPrefix, workflowId, "...");
      }
    } else if workflow.None? {
      ContainsInfix(ErrorMarkdownPrefix, workflowId, ErrorMarkdownSuffix);
    } else {
      ContainsInfix(HeadingPrefix, workflow.value.name, "");
    }
  }

  const TitleIdPrefix := "Workflow "

  /** `navigationTitle`: the workflow's name, else the initial name, else
      "Workflow " and the id. Never empty. */
  function NavigationTitle(workflow: Option<WorkflowFull>, initialName: Option<string>, workflowId: string): (t: string)
    ensures t != ""
    ensures workflow.Some? && workflow.value.name != "" ==> t == workflow.value.name
    ensures !(workflow.Some? && workflow.value.name != "") && TruthyText(initialName) ==> t == initialName.value
    ensures !(workflow.Some? && workflow.value.name != "") && !TruthyText(initialName) ==>
              StartsWith(t, TitleIdPrefix) && t[|TitleIdPrefix|..] == workflowId
  {
    var fallback := TitleIdPrefix + workflowId;
    assert fallback[..|TitleIdPrefix|] == TitleIdPrefix;
    OrElse(if workflow.Some? then Some(workflow.value.name) else None, OrElse(initialName, fallback))
  }

  // ---------------------------------------------------------------------------
  // Counts
  // ---------------------------------------------------------------------------

  /** `workflow?.nodes?.length ?? 0` */
  function NodeCount(workflow: Option<WorkflowFull>): (n: nat)
    ensures workflow.None? || workflow.value.nodes.None? ==> n == 0
    ensures workflow.Some? && workflow.value.nodes.Some? ==> n == |workflow.value.nodes.value|
  {
    if workflow.Some? && workflow.value.nodes.Some? then |workflow.value.nodes.value| else 0
  }

  /** `Array.prototype.flat()` to depth one. */
  function Flat<T>(s: seq<seq<T>>): seq<T> {
    if s == [] then [] else s[0] + Flat(s[1..])
  }

  /** The targets of one output; an undefined output has none. */
  function OutputTargets(o: ConnectionOutput): seq<ConnectionTarget> {
    if o.targets.Some? then Flat(o.targets.value) else []
  }

  /** The targets of all outputs of one source node, in output order. */
  function NodeTargets(outputs: seq<ConnectionOutput>): seq<ConnectionTarget> {
    if outputs == [] then [] else OutputTargets(outputs[0]) + NodeTargets(outputs[1..])
  }

  /** Every connection target of a workflow: one entry per edge of the graph. */
  function AllTargets(connections: seq<NodeConnections>): seq<ConnectionTarget> {
    if connections == [] then [] else NodeTargets(connections[0].outputs) + AllTargets(connections[1..])
  }

  lemma {:induction false} NodeTargetsAppend(a: seq<ConnectionOutput>, b: seq<ConnectionOutput>)
    ensures NodeTargets(a + b) == NodeTargets(a) + NodeTargets(b)
  {
    if a != [] {
      assert (a + b)[1..] == a[1..] + b;
      NodeTargetsAppend(a[1..], b);
    } else {
      assert a + b == b;
    }
  }

  lemma {:induction false} AllTargetsAppend(a: seq<NodeConnections>, b: seq<NodeConnections>)
    ensures AllTargets(a + b) == AllTargets(a) + AllTargets(b)
  {
    if a != [] {
      assert (a + b)[1..] == a[1..] + b;
      AllTargetsAppend(a[1..], b);
    } else {
      assert a + b == b;
    }
  }

  /** `connectionCount`: the nested `reduce` over source nodes and their
      outputs, adding the length of each flattened output (0 when undefined).
      It counts every edge exactly once. */
  method ConnectionCount(connections: Option<seq<NodeConnections>>) returns (totalConnections: nat)
    ensures connections.None? ==> totalConnections == 0
    ensures connections.Some? ==> totalConnections == |AllTargets(connections.value)|
  {
    if connections.None? {
      return 0;
    }
    var nodes := connections.value;
    totalConnections := 0;
    var i := 0;
    while i < |nodes|
      invariant 0 <= i <= |nodes|
      invariant totalConnections == |AllTargets(nodes[..i])|
    {
      var outputs := nodes[i].outputs;
      var countInNode := 0;
      var j := 0;
      while j < |outputs|
        invariant 0 <= j <= |outputs|
        invariant countInNode == |NodeTargets(outputs[..j])|
      {
        var outputTargetsArray := outputs[j].targets;
        countInNode := countInNode + (if outputTargetsArray.Some? then |Flat(outputTargetsArray.value)| else 0);
        assert outputs[..j + 1] == outputs[..j] + [outputs[j]];
        NodeTargetsAppend(outputs[..j], [outputs[j]]);
        j := j + 1;
      }
      assert outputs[..j] == outputs;
      totalConnections := totalConnections + countInNode;
      assert nodes[..i + 1] == nodes[..i] + [nodes[i]];
      AllTargetsAppend(nodes[..i], [nodes[i]]);
      i := i + 1;
    }
    assert nodes[..i] == nodes;
  }

  /** Counting the connections of two groups of source nodes separately and
      adding gives the count of the whole. */
  lemma {:induction false} ConnectionCountAdditive(a: seq<NodeConnections>, b: seq<NodeConnections>)
    ensures |AllTargets(a + b)| == |AllTargets(a)| + |AllTargets(b)|
  {
    AllTargetsAppend(a, b);
  }

  /** A source node without outputs, or whose outputs are all undefined, adds
      no connections. */
  lemma {:induction false} UndefinedOutputsCountZero(outputs: seq<ConnectionOutput>)
    requires forall k :: 0 <= k < |outputs| ==> outputs[k].targets.None?
    ensures NodeTargets(outputs) == []
  {
    if outputs != [] {
      UndefinedOutputsCountZero(outputs[1..]);
    }
  }
}
