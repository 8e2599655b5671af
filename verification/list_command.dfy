/** The list command in src/commands/list-workflows.command.tsx: how a
    fetched response becomes the list state, and which of the fetched
    workflows are shown for the current search text. */
module ListWorkflowsCommand {
  import opened Wrappers
  import opened Text
  import opened JsonData
  import opened Types
  import opened N8nApiService

  /** `updateWorkflowsStateFromResult`: an array is taken as it is, a single
      record with an `id` becomes a one-element list, anything else (including
      no result at all) the empty list. */
  function UpdateWorkflowsStateFromResult(result: Option<Json>): (workflows: seq<Json>)
    ensures result.None? ==> workflows == []
    ensures result.Some? && result.value.Arr? ==> workflows == result.value.items
    ensures result.Some? && HasKey(result.value, "id") ==> workflows == [result.value]
    ensures result.Some? && !result.value.Arr? && !HasKey(result.value, "id") ==> workflows == []
  {
    match result
    case None => []
    case Some(r) =>
      if r.Arr? then r.items
      else if Truthy(r) && r.Obj? && "id" in r.fields then [r]
      else []
  }

  /** The command repeats the service's summary reconciliation rule: both read
      any response the same way. */
  lemma StateAgreesWithSummaryNormalisation(data: Json)
    ensures UpdateWorkflowsStateFromResult(Some(data)) == NormalizeSummaries(data)
  {
  }

  /** The list state after one load: the reconciled result, or the empty list
      when the load failed (the error is reported to the user). */
  function LoadedWorkflows(c: Call<Json>): (workflows: seq<Json>)
    ensures c.result.Err? ==> workflows == []
    ensures c.result.Ok? ==> workflows == NormalizeSummaries(c.result.value)
  {
    match c.result
    case Err(_) => []
    case Ok(data) => UpdateWorkflowsStateFromResult(Some(data))
  }

  /** A workflow whose name contains the search text, ignoring letter case. */
  predicate NameMatches(w: WorkflowSummary, searchText: string) {
    Contains(Lower(w.name), Lower(searchText))
  }

  /** `a` is `b` with some elements left out, in the same order. */
  predicate IsSubsequence<T(==)>(a: seq<T>, b: seq<T>)
    decreases |b|
  {
    a == [] || (b != [] && ((a[0] == b[0] && IsSubsequence(a[1..], b[1..])) || IsSubsequence(a, b[1..])))
  }

  /** Every list is a subsequence of itself. */
  lemma {:induction false} SubsequenceReflexive<T>(s: seq<T>)
    ensures IsSubsequence(s, s)
  {
    if s != [] {
      SubsequenceReflexive(s[1..]);
    }
  }

  /** `workflows.filter(wf => wf.name.toLowerCase().includes(q.toLowerCase()))`:
      exactly the matching workflows, each as often as it was fetched, in the
      fetched order. */
  function FilterByName(workflows: seq<WorkflowSummary>, searchText: string): (r: seq<WorkflowSummary>)
    ensures IsSubsequence(r, workflows)
    ensures forall i :: 0 <= i < |r| ==> NameMatches(r[i], searchText)
    ensures forall w :: multiset(r)[w] == if NameMatches(w, searchText) then multiset(workflows)[w] else 0
  {
    if workflows == [] then []
    else
      var rest := FilterByName(workflows[1..], searchText);
      assert workflows == [workflows[0]] + workflows[1..];
      if NameMatches(workflows[0], searchText) then
        [workflows[0]] + rest
      else
        assert rest != [] ==> rest[0] != workflows[0];
        rest
  }

  /** A list whose every name matches passes the filter unchanged. */
  lemma {:induction false} FilterKeepsMatchingList(workflows: seq<WorkflowSummary>, searchText: string)
    requires forall i :: 0 <= i < |workflows| ==> NameMatches(workflows[i], searchText)
    ensures FilterByName(workflows, searchText) == workflows
  {
    if workflows != [] {
      FilterKeepsMatchingList(workflows[1..], searchText);
    }
  }

  /** Filtering by the same text twice is filtering once. */
  lemma FilterIdempotent(workflows: seq<WorkflowSummary>, searchText: string)
    ensures FilterByName(FilterByName(workflows, searchText), searchText) == FilterByName(workflows, searchText)
  {
    FilterKeepsMatchingList(FilterByName(workflows, searchText), searchText);
  }

  /** `displayedWorkflows`: a non-empty search text that does not look like an
      id filters the fetched list by name; an empty or id-like one shows the
      fetched list as it is, the server having already matched the id. */
  function DisplayedWorkflows(fetched: seq<WorkflowSummary>, searchText: string): (shown: seq<WorkflowSummary>)
    ensures searchText == "" || IsIdLike(searchText) ==> shown == fetched
    ensures searchText != "" && !IsIdLike(searchText) ==> shown == FilterByName(fetched, searchText)
    ensures IsSubsequence(shown, fetched)
  {
    SubsequenceReflexive(fetched);
    if searchText != "" && !IsIdLike(searchText) then FilterByName(fetched, searchText) else fetched
  }

  /** The list is never filtered on the client for a text the server was asked
      to match as an id, and always is otherwise (for a non-empty text): both
      sides use the one id-like test. */
  lemma RoutingAgreesWithDisplay(
    prefs: Preferences, transport: Transport, filter: IncludedWorkflows,
    searchText: string, fetched: seq<WorkflowSummary>)
    requires PreferencesConfigured(prefs)
    ensures var c := SearchWorkflows(prefs, transport, Some(filter), Some(searchText));
            && c.sent.Some?
            && ("workflowId" in c.sent.value.params ==> DisplayedWorkflows(fetched, searchText) == fetched)
            && ("workflowId" !in c.sent.value.params && searchText != "" ==>
                  DisplayedWorkflows(fetched, searchText) == FilterByName(fetched, searchText))
  {
  }

  /** A plain word of ten or more letters already counts as an id: a search
      for "automation" asks the server for that workflow id and shows its
      answer without matching names on the client. */
  lemma LongWordsRouteAsIds(
    prefs: Preferences, transport: Transport, filter: IncludedWorkflows, fetched: seq<WorkflowSummary>)
    requires PreferencesConfigured(prefs)
    ensures var c := SearchWorkflows(prefs, transport, Some(filter), Some("automation"));
            && c.sent.Some?
            && c.sent.value.params["workflowId"] == "automation"
            && DisplayedWorkflows(fetched, "automation") == fetched
  {
    assert IsIdLike("automation");
  }

  /** The search ignores letter case: a text and its lower-cased form show the
      same workflows. */
  lemma {:induction false} DisplayIgnoresCase(fetched: seq<WorkflowSummary>, searchText: string)
    ensures DisplayedWorkflows(fetched, Lower(searchText)) == DisplayedWorkflows(fetched, searchText)
  {
    LowerIdempotent(searchText);
    var l := Lower(searchText);
    assert IsIdLike(l) <==> IsIdLike(searchText) by {
      forall i | 0 <= i < |l|
        ensures IsAsciiAlnum(l[i]) <==> IsAsciiAlnum(searchText[i])
      {
      }
    }
    if searchText != "" && !IsIdLike(searchText) {
      assert forall w :: NameMatches(w, l) == NameMatches(w, searchText);
      FilterSameForSameMatches(fetched, l, searchText);
    }
  }

  /** Two texts that match the same workflows filter alike. */
  lemma {:induction false} FilterSameForSameMatches(workflows: seq<WorkflowSummary>, a: string, b: string)
    requires forall w :: NameMatches(w, a) == NameMatches(w, b)
    ensures FilterByName(workflows, a) == FilterByName(workflows, b)
  {
    if workflows != [] {
      FilterSameForSameMatches(workflows[1..], a, b);
    }
  }
}
