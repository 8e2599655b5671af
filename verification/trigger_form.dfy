/** The decisions of the trigger form in src/views/TriggerWorkflowFormView.tsx:
    which workflow is selected after a load, what the form calls it, its
    title, the dropdown's entries and error, and the order of the checks a
    submission passes. */
module TriggerForm {
  import opened Wrappers
  import opened Text
  import opened JsonData
  import opened Types
  import opened N8nApiService
  import opened JsonUtils
  import opened WorkflowActions

  const DefaultTitle := "Trigger n8n Workflow"
  const TitlePrefix := "Trigger: "
  const DefaultDisplayName := "Selected Workflow"
  const SelectWorkflowError := "Please select a workflow"
  const PreselectedSuffix := " (Pre-selected)"
  const LoadingSuffix := " (Loading...)"

  /** Some fetched workflow has this id. */
  predicate HasWorkflowId(workflows: seq<WorkflowSummary>, id: string) {
    exists i :: 0 <= i < |workflows| && workflows[i].id == id
  }

  /** `workflows.find(wf => wf.id === id)`: the first workflow with that id. */
  function FindWorkflow(workflows: seq<WorkflowSummary>, id: string): (r: Option<WorkflowSummary>)
    ensures r.Some? ==> r.value in workflows && r.value.id == id
    ensures r.None? <==> !HasWorkflowId(workflows, id)
    ensures r.Some? ==>
              exists k :: 0 <= k < |workflows| && workflows[k] == r.value
                          && forall j :: 0 <= j < k ==> workflows[j].id != id
  {
    if workflows == [] then None
    else if workflows[0].id == id then Some(workflows[0])
    else
      var rest := FindWorkflow(workflows[1..], id);
      FirstMatchInTail(workflows, id, rest);
      assert HasWorkflowId(workflows, id) <==> HasWorkflowId(workflows[1..], id) by {
        if HasWorkflowId(workflows, id) {
          var i :| 0 <= i < |workflows| && workflows[i].id == id;
          assert workflows[1..][i - 1].id == id;
        }
        if HasWorkflowId(workflows[1..], id) {
          var i :| 0 <= i < |workflows[1..]| && workflows[1..][i].id == id;
          assert workflows[i + 1].id == id;
        }
      }
      rest
  }

  /** A first match in the tail, behind a head that does not match, is the
      first match of the whole list. */
  lemma FirstMatchInTail(workflows: seq<WorkflowSummary>, id: string, rest: Option<WorkflowSummary>)
    requires |workflows| > 0 && workflows[0].id != id
    requires rest.Some? ==>
               exists k :: 0 <= k < |workflows[1..]| && workflows[1..][k] == rest.value
                           && forall j :: 0 <= j < k ==> workflows[1..][j].id != id
    ensures rest.Some? ==>
              exists k :: 0 <= k < |workflows| && workflows[k] == rest.value
                          && forall j :: 0 <= j < k ==> workflows[j].id != id
  {
    if rest.Some? {
      var k :| 0 <= k < |workflows[1..]| && workflows[1..][k] == rest.value
               && forall j :: 0 <= j < k ==> workflows[1..][j].id != id;
      assert workflows[k + 1] == rest.value;
      forall j | 0 <= j < k + 1
        ensures workflows[j].id != id
      {
        if j > 0 {
          assert workflows[j] == workflows[1..][j - 1];
        }
      }
    }
  }

  /** `determineNewSelectedWorkflowId`: an initial id given to the form always
      wins; otherwise a current selection still in the fetched list stays, and
      else the first fetched workflow is chosen; with nothing fetched the
      current selection (or "") stays. */
  function DetermineNewSelectedWorkflowId(
    fetched: seq<WorkflowSummary>, current: Option<string>, initial: Option<string>): (r: string)
    ensures TruthyText(initial) ==> r == initial.value
    ensures !TruthyText(initial) && |fetched| > 0 && TruthyText(current) && HasWorkflowId(fetched, current.value) ==>
              r == current.value
    ensures !TruthyText(initial) && |fetched| > 0 && !(TruthyText(current) && HasWorkflowId(fetched, current.value)) ==>
              r == fetched[0].id
    ensures !TruthyText(initial) && fetched == [] ==> r == OrElse(current, "")
    ensures TruthyText(initial) || HasWorkflowId(fetched, r) || r == OrElse(current, "")
  {
    if TruthyText(initial) then initial.value
    else if |fetched| > 0 then
      var isCurrentStillValid := current.Some? && HasWorkflowId(fetched, current.value);
      if TruthyText(current) && isCurrentStillValid then current.value
      else fetched[0].id
    else OrElse(current, "")
  }

  /** Re-running the selection on the same list with its own outcome as the
      current selection changes nothing: a reload does not move the selection. */
  lemma SelectionIsStable(fetched: seq<WorkflowSummary>, current: Option<string>, initial: Option<string>)
    ensures var r := DetermineNewSelectedWorkflowId(fetched, current, initial);
            DetermineNewSelectedWorkflowId(fetched, Some(r), initial) == r
  {
    var r := DetermineNewSelectedWorkflowId(fetched, current, initial);
    if !TruthyText(initial) && |fetched| > 0 {
      assert HasWorkflowId(fetched, fetched[0].id);
    }
  }

  /** Without an initial id, a non-empty fetched list always yields the id of
      one of its workflows. */
  lemma SelectionComesFromList(fetched: seq<WorkflowSummary>, current: Option<string>, initial: Option<string>)
    requires !TruthyText(initial) && |fetched| > 0
    ensures HasWorkflowId(fetched, DetermineNewSelectedWorkflowId(fetched, current, initial))
  {
    assert HasWorkflowId(fetched, fetched[0].id);
  }

  /** `getSelectedWorkflowDisplayName`: the initial name while the initial
      workflow is selected, else the first non-empty of the selected
      workflow's name, the initial name, the selected id and a fixed text. */
  function SelectedWorkflowDisplayName(
    workflows: seq<WorkflowSummary>, selectedId: string,
    initialId: Option<string>, initialName: Option<string>): (name: string)
    ensures name != ""
    ensures initialId == Some(selectedId) && TruthyText(initialName) ==> name == initialName.value
    ensures !(initialId == Some(selectedId) && TruthyText(initialName)) ==>
              var selected := FindWorkflow(workflows, selectedId);
              if selected.Some? && selected.value.name != "" then name == selected.value.name
              else if TruthyText(initialName) then name == initialName.value
              else if selectedId != "" then name == selectedId
              else name == DefaultDisplayName
  {
    var selectedWF := FindWorkflow(workflows, selectedId);
    if initialId == Some(selectedId) && TruthyText(initialName) then initialName.value
    else
      OrElse(if selectedWF.Some? then Some(selectedWF.value.name) else None,
        OrElse(initialName,
          OrElse(Some(selectedId), DefaultDisplayName)))
  }

  /** The form's title text before the prefix: the selected workflow's name,
      else the initial name while the initial workflow is selected, else the
      default title. */
  function NavigationTitleDisplay(
    workflows: seq<WorkflowSummary>, selectedId: string,
    initialId: Option<string>, initialName: Option<string>): (t: string)
    ensures t != ""
    ensures var selected := FindWorkflow(workflows, selectedId);
            selected.Some? && selected.value.name != "" ==> t == selected.value.name
    ensures var selected := FindWorkflow(workflows, selectedId);
            !(selected.Some? && selected.value.name != "") && initialId == Some(selectedId) && TruthyText(initialName) ==>
              t == initialName.value
    ensures var selected := FindWorkflow(workflows, selectedId);
            !(selected.Some? && selected.value.name != "") && !(initialId == Some(selectedId) && TruthyText(initialName)) ==>
              t == DefaultTitle
  {
    var current := FindWorkflow(workflows, selectedId);
    OrElse(if current.Some? then Some(current.value.name) else None,
      OrElse(if initialId == Some(selectedId) then initialName else None, DefaultTitle))
  }

  /** The navigation title: "Trigger: " before the display text, except for
      the default title, which is shown bare. */
  function NavigationTitle(
    workflows: seq<WorkflowSummary>, selectedId: string,
    initialId: Option<string>, initialName: Option<string>): (title: string)
    ensures var d := NavigationTitleDisplay(workflows, selectedId, initialId, initialName);
            d != DefaultTitle ==> StartsWith(title, TitlePrefix) && title[|TitlePrefix|..] == d
    ensures var d := NavigationTitleDisplay(workflows, selectedId, initialId, initialName);
            d == DefaultTitle ==> title == DefaultTitle
  {
    var display := NavigationTitleDisplay(workflows, selectedId, initialId, initialName);
    if display != DefaultTitle then
      var title := TitlePrefix + display;
      assert title[..|TitlePrefix|] == TitlePrefix;
      title
    else display
  }

  /** The title is never "Trigger: Trigger n8n Workflow", and always begins
      with "Trigger". */
  lemma TitleNeverDoublePrefixed(
    workflows: seq<WorkflowSummary>, selectedId: string,
    initialId: Option<string>, initialName: Option<string>)
    ensures var title := NavigationTitle(workflows, selectedId, initialId, initialName);
            && title != TitlePrefix + DefaultTitle
            && StartsWith(title, "Trigger")
  {
    var d := NavigationTitleDisplay(workflows, selectedId, initialId, initialName);
    var title := NavigationTitle(workflows, selectedId, initialId, initialName);
    if d != DefaultTitle {
      assert (TitlePrefix + DefaultTitle)[|TitlePrefix|..] == DefaultTitle;
      assert title[..7] == TitlePrefix[..7] == "Trigger";
    } else {
      assert title == DefaultTitle;
      assert |title| != |TitlePrefix + DefaultTitle|;
      assert title[..7] == DefaultTitle[..7] == "Trigger";
    }
  }

  /** One entry of the workflow dropdown. */
  datatype DropdownItem = DropdownItem(value: string, title: string)

  /** The initial workflow gets its own "(Pre-selected)" entry: it has an id
      and a name, and no fetched workflow carries that id. */
  predicate OffersPreselected(workflows: seq<WorkflowSummary>, initialId: Option<string>, initialName: Option<string>) {
    TruthyText(initialId) && TruthyText(initialName) && !HasWorkflowId(workflows, initialId.value)
  }

  /** The initial workflow gets a "(Loading...)" entry: it has an id and a
      name, and the list is still loading with nothing fetched. */
  predicate OffersLoadingPlaceholder(
    isLoading: bool, workflows: seq<WorkflowSummary>, initialId: Option<string>, initialName: Option<string>)
  {
    isLoading && TruthyText(initialId) && TruthyText(initialName) && |workflows| == 0
  }

  /** The dropdown's entries, in order: the initial workflow marked
      "(Pre-selected)" while the fetched list lacks it, every fetched workflow,
      and the initial workflow marked "(Loading...)" while the list is loading
      and empty. */
  function DropdownItems(
    isLoading: bool, workflows: seq<WorkflowSummary>,
    initialId: Option<string>, initialName: Option<string>): (items: seq<DropdownItem>)
    ensures |items| == |PreselectedItems(workflows, initialId, initialName)| + |workflows|
                       + |PlaceholderItems(isLoading, workflows, initialId, initialName)|
    ensures var lead := |PreselectedItems(workflows, initialId, initialName)|;
            items[lead..lead + |workflows|] == FetchedItems(workflows)
    ensures OffersPreselected(workflows, initialId, initialName) ==>
              items[0] == DropdownItem(initialId.value, initialName.value + PreselectedSuffix)
    ensures OffersLoadingPlaceholder(isLoading, workflows, initialId, initialName) ==>
              items[|items| - 1] == DropdownItem(initialId.value, initialName.value + LoadingSuffix)
    ensures forall i :: 0 <= i < |workflows| ==> DropdownItem(workflows[i].id, workflows[i].name) in items
    ensures forall item :: item in items ==>
              HasWorkflowId(workflows, item.value) || (TruthyText(initialId) && item.value == initialId.value)
  {
    var preselected := PreselectedItems(workflows, initialId, initialName);
    var fetched := FetchedItems(workflows);
    var placeholder := PlaceholderItems(isLoading, workflows, initialId, initialName);
    AssembledDropdown(preselected, fetched, placeholder, workflows, initialId);
    preselected + fetched + placeholder
  }

  /** The "(Pre-selected)" entry, when there is one. */
  function PreselectedItems(workflows: seq<WorkflowSummary>, initialId: Option<string>, initialName: Option<string>)
    : (p: seq<DropdownItem>)
    ensures |p| == if OffersPreselected(workflows, initialId, initialName) then 1 else 0
    ensures |p| == 1 ==> p[0] == DropdownItem(initialId.value, initialName.value + PreselectedSuffix)
    ensures forall item :: item in p ==> TruthyText(initialId) && item.value == initialId.value
  {
    if OffersPreselected(workflows, initialId, initialName)
    then [DropdownItem(initialId.value, initialName.value + PreselectedSuffix)] else []
  }

  /** One entry per fetched workflow, in list order. */
  function FetchedItems(workflows: seq<WorkflowSummary>): (f: seq<DropdownItem>)
    ensures |f| == |workflows|
    ensures forall i :: 0 <= i < |workflows| ==> f[i] == DropdownItem(workflows[i].id, workflows[i].name)
    ensures forall item :: item in f ==> HasWorkflowId(workflows, item.value)
  {
    var f := seq(|workflows|, i requires 0 <= i < |workflows| => DropdownItem(workflows[i].id, workflows[i].name));
    assert forall i :: 0 <= i < |workflows| ==> f[i] == DropdownItem(workflows[i].id, workflows[i].name);
    f
  }

  /** The "(Loading...)" entry, when there is one. */
  function PlaceholderItems(
    isLoading: bool, workflows: seq<WorkflowSummary>, initialId: Option<string>, initialName: Option<string>)
    : (c: seq<DropdownItem>)
    ensures |c| == if OffersLoadingPlaceholder(isLoading, workflows, initialId, initialName) then 1 else 0
    ensures |c| == 1 ==> c[0] == DropdownItem(initialId.value, initialName.value + LoadingSuffix)
    ensures forall item :: item in c ==> TruthyText(initialId) && item.value == initialId.value
  {
    if OffersLoadingPlaceholder(isLoading, workflows, initialId, initialName)
    then [DropdownItem(initialId.value, initialName.value + LoadingSuffix)] else []
  }

  /** The dropdown's parts put together: the fetched entries sit behind the
      leading part, every one is offered, and every value comes from the list
      or is the initial id. */
  lemma AssembledDropdown(
    lead: seq<DropdownItem>, fetched: seq<DropdownItem>, trail: seq<DropdownItem>,
    workflows: seq<WorkflowSummary>, initialId: Option<string>)
    requires |fetched| == |workflows|
    requires forall i :: 0 <= i < |workflows| ==> fetched[i] == DropdownItem(workflows[i].id, workflows[i].name)
    requires forall item :: item in fetched ==> HasWorkflowId(workflows, item.value)
    requires forall item :: item in lead ==> TruthyText(initialId) && item.value == initialId.value
    requires forall item :: item in trail ==> TruthyText(initialId) && item.value == initialId.value
    ensures |lead + fetched + trail| == |lead| + |workflows| + |trail|
    ensures (lead + fetched + trail)[|lead|..|lead| + |workflows|] == fetched
    ensures |lead| > 0 ==> (lead + fetched + trail)[0] == lead[0]
    ensures |trail| > 0 ==> (lead + fetched + trail)[|lead| + |workflows| + |trail| - 1] == trail[|trail| - 1]
    ensures forall i :: 0 <= i < |workflows| ==> DropdownItem(workflows[i].id, workflows[i].name) in lead + fetched + trail
    ensures forall item :: item in lead + fetched + trail ==>
              HasWorkflowId(workflows, item.value) || (TruthyText(initialId) && item.value == initialId.value)
  {
    var items := lead + fetched + trail;
    assert items[|lead|..|lead| + |workflows|] == fetched;
    forall i | 0 <= i < |workflows|
      ensures DropdownItem(workflows[i].id, workflows[i].name) in items
    {
      assert items[|lead| + i] == fetched[i];
    }
  }

  /** A workflow handed to the form with its id and name can always be chosen,
      whether or not it is in the fetched list yet. */
  lemma InitialWorkflowAlwaysOffered(
    isLoading: bool, workflows: seq<WorkflowSummary>, initialId: string, initialName: string)
    requires initialId != "" && initialName != ""
    ensures exists item :: item in DropdownItems(isLoading, workflows, Some(initialId), Some(initialName))
                        && item.value == initialId
  {
    var items := DropdownItems(isLoading, workflows, Some(initialId), Some(initialName));
    if HasWorkflowId(workflows, initialId) {
      var i :| 0 <= i < |workflows| && workflows[i].id == initialId;
      assert DropdownItem(workflows[i].id, workflows[i].name) in items;
    } else {
      assert items[0] == DropdownItem(initialId, initialName + PreselectedSuffix);
    }
  }

  /** The dropdown's error: a loaded, non-empty list with nothing selected. */
  function DropdownError(isLoading: bool, workflows: seq<WorkflowSummary>, selectedId: string): (e: Option<string>)
    ensures e.Some? <==> !isLoading && |workflows| > 0 && selectedId == ""
    ensures e.Some? ==> e.value == SelectWorkflowError
  {
    if !isLoading && |workflows| > 0 && selectedId == "" then Some(SelectWorkflowError) else None
  }

  /** After a load of workflows that all have ids, the selection logic never
      leaves the dropdown in its error state. */
  lemma LoadedSelectionShowsNoError(fetched: seq<WorkflowSummary>, current: Option<string>, initial: Option<string>)
    requires forall i :: 0 <= i < |fetched| ==> fetched[i].id != ""
    ensures DropdownError(false, fetched, DetermineNewSelectedWorkflowId(fetched, current, initial)).None?
  {
  }

  /** What a submission leads to. */
  datatype SubmitOutcome =
    | NoSelection
    | JsonFieldError(message: string)
    | Submitted(displayName: string, call: Call<TriggerActionResult>)

  /** `handleSubmit`: an empty selection is reported first; then a JSON error
      is put on the field; only then is the trigger sent, under the form's
      display name for the selected workflow. */
  function HandleSubmit(
    prefs: Preferences, transport: Transport, parse: JsonParser,
    workflows: seq<WorkflowSummary>, selectedId: string,
    initialId: Option<string>, initialName: Option<string>, jsonData: string): (o: SubmitOutcome)
    ensures o.NoSelection? <==> selectedId == ""
    ensures o.JsonFieldError? <==> selectedId != "" && ParseJsonInput(jsonData, parse).error.Some?
    ensures o.JsonFieldError? ==> o.message == ParseJsonInput(jsonData, parse).error.value
    ensures o.Submitted? ==>
              && o.displayName == SelectedWorkflowDisplayName(workflows, selectedId, initialId, initialName)
              && o.call.sent == TriggerWorkflowExecution(prefs, transport, selectedId, ParseJsonInput(jsonData, parse).data).sent
              && o.call == TriggerWorkflowWithJson(prefs, transport, parse, selectedId, o.displayName, jsonData)
  {
    if selectedId == "" then NoSelection
    else
      var input := ParseJsonInput(jsonData, parse);
      if TruthyText(input.error) then JsonFieldError(input.error.value)
      else
        var displayName := SelectedWorkflowDisplayName(workflows, selectedId, initialId, initialName);
        Submitted(displayName, TriggerWorkflowWithJson(prefs, transport, parse, selectedId, displayName, jsonData))
  }

  /** A submission that gets past the form's checks is never turned back by
      the JSON check inside the trigger action: its request is always made
      once the preferences are set. */
  lemma SubmittedTriggerAlwaysSends(
    prefs: Preferences, transport: Transport, parse: JsonParser,
    workflows: seq<WorkflowSummary>, selectedId: string,
    initialId: Option<string>, initialName: Option<string>, jsonData: string)
    requires PreferencesConfigured(prefs)
    ensures var o := HandleSubmit(prefs, transport, parse, workflows, selectedId, initialId, initialName, jsonData);
            o.Submitted? ==> o.call.sent.Some?
  {
  }

  /** `handleJsonBlur`: blank text clears the field error; other text gets
      the error the JSON check reports, if any. */
  function JsonBlurError(jsonData: string, parse: JsonParser): (e: Option<string>)
    ensures IsBlank(jsonData) ==> e.None?
    ensures e.Some? <==> !IsBlank(jsonData) && parse(jsonData).Threw?
  {
    if Trim(jsonData) == "" then None
    else ParseJsonInput(jsonData, parse).error
  }

  /** A field error shown on blur carries the parser's own message. */
  lemma BlurErrorNamesCause(jsonData: string, parse: JsonParser)
    ensures var e := JsonBlurError(jsonData, parse);
            e.Some? ==> InvalidJsonDetail(e.value) == Some(ThrownMessage(parse(jsonData).thrown))
  {
    if JsonBlurError(jsonData, parse).Some? {
      ParseErrorNamesCause(jsonData, parse);
    }
  }

  /** Leaving the field and submitting judge the text alike: the field shows
      an error on blur exactly when a submission would stop on it. */
  lemma BlurAgreesWithSubmit(
    prefs: Preferences, transport: Transport, parse: JsonParser,
    workflows: seq<WorkflowSummary>, selectedId: string,
    initialId: Option<string>, initialName: Option<string>, jsonData: string)
    requires selectedId != ""
    ensures var o := HandleSubmit(prefs, transport, parse, workflows, selectedId, initialId, initialName, jsonData);
            (JsonBlurError(jsonData, parse).Some? <==> o.JsonFieldError?)
            && (o.JsonFieldError? ==> JsonBlurError(jsonData, parse) == Some(o.message))
  {
  }
}
