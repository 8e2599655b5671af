# n8n workflow manager for Raycast — a Dafny model

This project models the client core of the n8n workflow manager extension for
Raycast. The extension lists, inspects and triggers the workflows of an n8n
instance. The model covers the following parts:

- **Service** (`n8nApiService.ts`). It checks the two preferences (webhook URL
  and API token) before any request. It builds the query parameters and the
  headers, performs one HTTP exchange, and turns a failed exchange into one
  readable message. It also reconciles responses: an array, a single record
  with an `id`, or anything else.
  - Summary lists are normalised to arrays.
  - A full-detail response is accepted only when its `id` is the requested one.
  - A search text that looks like a workflow id (ten or more ASCII letters or
    digits) is sent to the server as `workflowId`.
- **JSON payload gate** (`jsonUtils.ts`). Blank text means no payload.
  Parsable text gives its value. Anything else gives an error that asks the
  user to correct or clear the field.
- **Actions** (`workflowActions.ts`). Thin orchestration: list, details, quick
  trigger, trigger with JSON, and the list for the selection dropdown. A JSON
  error stops the trigger before any request. Service failures pass through
  unchanged.
- **List command**. It reconciles the fetched result into list state and
  filters names case-insensitively for non-id search text. It uses the same
  id-like test as the service.
- **Trigger form**. It resolves the selected workflow, falls back through
  display names and titles, builds the dropdown entries and their error, and
  orders the checks on submit.
- **Detail view**. It guards against an empty id, chooses the markdown and
  title, counts nodes, and folds the connection graph into a connection count.
- **Format utilities**. The trigger status message with status-text
  sanitisation, the copy text of a response, and the instance address.

Several outside pieces are function parameters of the model:

| parameter | stands for |
|---|---|
| `Transport = Request -> Exchange` | The HTTP library. The exchange either receives a response, fails with an HTTP-library error (optional status, status text and body, plus the library's message), or throws something else. |
| `JsonParser` | `JSON.parse` |
| `Stringify` | `JSON.stringify` |
| `NumberText` | `String(number)` |
| `UrlParser` | The `URL` constructor |
| `DetailFetch` | The detail view's call into the actions |

Service operations return `Call(sent, result)`:

- `sent` is the request handed to the transport, or `None` when none was made.
- `Err(message)` is the `Error` the TypeScript code throws.

`buildN8nAxiosConfig` only packs its five arguments into one object, so the
model has no separate function for it: it is the constructor of the
`N8nRequest.Request` record. `N8nApiService.BaseN8nApiRequest` states the
record it sends field by field.

Response bodies and payloads are the `Json` datatype (section 3 of RFC 8259).
The shape tests of the source are therefore real tests in the model:
`Array.isArray`, `typeof … === "object"`, `"id" in …` and truthiness.

One consequence of the code as written is modelled faithfully. A full-detail
response that is an array with a `null` element before the requested record
does not give "not found". `find` throws while reading `id` of `null`, so the
detail fetch fails with that `TypeError` message
(`N8nApiService.NormalizeAndValidateWorkflowDetails`).

## Model

| member | source | states |
|---|---|---|
| N8nApiService.ValidateN8nPreferences | src/services/n8nApiService.ts:46-60 | The preferences pass exactly when both the URL and the token are non-empty. Otherwise the check fails with the fixed configuration message. |
| N8nRequest.BuildN8nQueryParams | src/services/n8nApiService.ts:63-73 | No params give an empty map. Otherwise `mode`, `workflowId` and `includedWorkflows` each appear iff their value is present (a non-empty `workflowId`) and carry that value. No other key appears, and no key maps to "". |
| N8nRequest.QueryParamsRoundTrip | src/services/n8nApiService.ts:63-73 | Reading the query map back gives the given parameters. The only loss is an empty workflow id. |
| N8nRequest.BuildN8nHeaders | src/services/n8nApiService.ts:76-89 | `Authorization` is always `Bearer <token>`. `Content-Type: application/json` is present iff the upper-cased method is POST or PUT and a body is given. No other header appears. |
| N8nRequest.AuthorizationRoundTrip | src/services/n8nApiService.ts:81-83 | The bearer token read back from the header (section 2.1 of RFC 6750) is the configured token. |
| N8nErrors.DefaultErrorMessage | src/services/n8nApiService.ts:105 | "n8n API Error: ", then the status, a space and the status text, in that order: reading the message back gives exactly the status number (or none for the "Unknown Status" placeholder) and the status text (or "Unknown Status Text"). With no response it is exactly "n8n API Error: Unknown Status Unknown Status Text". It contains the status number or its placeholder, and the status text or its placeholder. |
| N8nErrors.KnownStatusReadsBack | src/services/n8nApiService.ts:105 | A message built from a status number and a status text reads back as that number and that text. |
| N8nErrors.UnknownStatusReadsBack | src/services/n8nApiService.ts:105 | A message built from the "Unknown Status" placeholder reads back as no number and the status text that followed. |
| N8nErrors.ResponseDetail | src/services/n8nApiService.ts:106-121 | The detail is a non-blank string `message` member of the body if there is one. Failing that, it is a non-blank string body. Otherwise it is "". |
| N8nErrors.ExtractN8nErrorMessage | src/services/n8nApiService.ts:103-134 | Never empty. A detail gives `default + ": " + detail`. Otherwise an informative lower-level message comes back verbatim. Otherwise the default comes back. |
| N8nErrors.GenericPhraseNeverVerbatim | src/services/n8nApiService.ts:127-133 | A result that mentions "request failed with status code" (in any letter case) is always the composed "n8n API Error" message. |
| N8nErrors.StructuredMessageNamesStatus | src/services/n8nApiService.ts:105-124 | With a structured body message, the result contains both the status number and that message, whatever lower-level message the HTTP library supplied. |
| N8nErrors.NetworkTimeoutVerbatim | src/services/n8nApiService.ts:127-132 | With no response, "Network timeout" is returned exactly. |
| N8nApiService.TransportFailureMessage | src/services/n8nApiService.ts:160-171 | An HTTP-library failure gives the extracted message. Another `Error` gives its message, or the "unexpected error" text when that message is empty. Any other thrown value gives the "unknown error" text. The result is never empty. |
| N8nApiService.BaseN8nApiRequest | src/services/n8nApiService.ts:92-172 | A missing preference fails with the configuration message and sends nothing. Otherwise exactly the built request is sent. The call succeeds iff the exchange received a response, whose data, status and status text are returned unchanged. Any failure has a non-empty message. |
| N8nApiService.NormalizeSummaries | src/services/n8nApiService.ts:196-207 | An array is kept. An object with `id` becomes a one-element list. Anything else becomes []. |
| N8nApiService.NormalizeSummariesIdempotent | src/services/n8nApiService.ts:196-207 | Normalising a normalised list changes nothing. |
| N8nApiService.GetWorkflowSummaries | src/services/n8nApiService.ts:184-208 | Sends a GET with exactly `mode=summary` and the filter (`all` by default), and no Content-Type. A success is the normalised response data. A missing preference fails with the configuration message. A failed exchange fails with exactly the base request's transport message. |
| N8nApiService.IdLikeExamples | src/services/n8nApiService.ts:228 | "abc123XYZ0" is id-like. "abc" and "my workflow" are not. |
| N8nApiService.SearchWorkflows | src/services/n8nApiService.ts:219-237 | Always sends `mode=summary`, and sends `includedWorkflows` iff a filter is given. Sends `workflowId = searchText` iff the text is id-like. Returns the raw response data. A missing preference fails with the configuration message. A failed exchange fails with exactly the transport message. |
| N8nApiService.FindById | src/services/n8nApiService.ts:257 | `find` returns the first element with the id, found after passing only non-null non-matching elements. `NotFound` means every element was passed. `ThrewOnNull` means a `null` was met first. |
| N8nApiService.NormalizeAndValidateWorkflowDetails | src/services/n8nApiService.ts:245-285 | Falsy data gives null. A single record is kept only if its id is the requested one. An array gives its first matching element. Any non-null result has the requested id. The only failure is a `null` element before any match. |
| N8nApiService.MismatchedRecordDiscarded | src/services/n8nApiService.ts:276-284 | A single record with a different id gives null. |
| N8nApiService.GetWorkflowDetails | src/services/n8nApiService.ts:293-307 | An empty id gives null with no request. Otherwise it sends exactly `mode=full` and `workflowId`. A missing preference fails with the configuration message, and a failed exchange fails with the transport message. A received response gives the validated result, which names the requested id. |
| N8nApiService.TriggerWorkflowExecution | src/services/n8nApiService.ts:316-324 | Sends a POST naming the workflow, with `data` as the body and a JSON Content-Type iff there is data. Returns the response data unchanged. A missing preference fails with the configuration message. A failed exchange fails with exactly the transport message. |
| JsonUtils.ParseJsonInput | src/utils/jsonUtils.ts:10-20 | Blank input gives neither data nor error. Parsable input gives its value. Otherwise the error wraps the parser's message, or "Unknown JSON parsing error" for a non-`Error`. Data and error are never both set, and an error is never empty. |
| JsonUtils.InvalidJsonMessageRoundTrip | src/utils/jsonUtils.ts:19 | The parser's message can be read back out of the error text. |
| JsonUtils.BlankInputsCarryNoPayload | src/utils/jsonUtils.ts:11-13 | "" and "   " give no data and no error. |
| JsonUtils.ParseErrorNamesCause | src/utils/jsonUtils.ts:16-19 | Every parse error says "Invalid" and carries the parser's message. |
| Text.TrimEmptyIffAllWhitespace | src/utils/jsonUtils.ts:11 | `trim() === ""` holds exactly for all-whitespace text. |
| WorkflowActions.ListWorkflows | src/logic/workflowActions.ts:22-28 | The same call and result as the service's search, failures included. |
| WorkflowActions.GetWorkflowDetails | src/logic/workflowActions.ts:36-41 | The same call and result as the service's detail fetch. |
| WorkflowActions.QuickTriggerWorkflow | src/logic/workflowActions.ts:50-64 | Sends a trigger with no body and no Content-Type. Succeeds iff the trigger does, with the fixed "was triggered successfully" message. A failure keeps its message. |
| WorkflowActions.QuickTriggerIgnoresResponse | src/logic/workflowActions.ts:55-63 | Two transports that both answer, with any data, give the same outcome. |
| WorkflowActions.TriggerWorkflowWithJson | src/logic/workflowActions.ts:74-97 | A JSON error fails with exactly that text and sends nothing. Otherwise the parsed value (none for blank text) is the body. A success returns the fixed message and the response data to copy. A failure keeps the service's message. |
| WorkflowActions.PayloadReachesServerAndResponseComesBack | src/logic/workflowActions.ts:79-96 | A parsable payload is posted as the JSON body, and the answer comes back as the data to copy. |
| WorkflowActions.GetWorkflowsForSelection | src/logic/workflowActions.ts:105-108 | Always requests the `all` filter. |
| ListWorkflowsCommand.UpdateWorkflowsStateFromResult | src/commands/list-workflows.command.tsx:26-39 | An array is kept. A record with `id` becomes a singleton. Anything else, or no result, becomes []. |
| ListWorkflowsCommand.StateAgreesWithSummaryNormalisation | src/commands/list-workflows.command.tsx:26-39 | The command's reconciliation equals the service's summary normalisation on every value. |
| ListWorkflowsCommand.LoadedWorkflows | src/commands/list-workflows.command.tsx:59-73 | A failed load clears the list. A successful load gives the reconciled result. |
| ListWorkflowsCommand.FilterByName | src/commands/list-workflows.command.tsx:83-85 | Exactly the workflows whose lower-cased name contains the lower-cased text, each as often as fetched, in fetched order (a subsequence). |
| ListWorkflowsCommand.FilterIdempotent | src/commands/list-workflows.command.tsx:83-85 | Filtering twice by the same text is filtering once. |
| ListWorkflowsCommand.FilterKeepsMatchingList | src/commands/list-workflows.command.tsx:83-85 | A list whose names all match passes unchanged. |
| ListWorkflowsCommand.DisplayedWorkflows | src/commands/list-workflows.command.tsx:80-89 | Empty or id-like text shows the fetched list. Any other text shows the name filter's result. Either way the result is a subsequence of the fetched list. |
| ListWorkflowsCommand.RoutingAgreesWithDisplay | src/commands/list-workflows.command.tsx:81 | When the search sent `workflowId`, nothing is filtered on the client. When it did not and the text is non-empty, the name filter applies. |
| ListWorkflowsCommand.LongWordsRouteAsIds | src/commands/list-workflows.command.tsx:81 | A plain ten-letter word ("automation") is routed as an id and not name-filtered. |
| ListWorkflowsCommand.DisplayIgnoresCase | src/commands/list-workflows.command.tsx:81-85 | A text and its lower-cased form show the same workflows. |
| TriggerForm.FindWorkflow | src/views/TriggerWorkflowFormView.tsx:147 | A workflow with the id that no earlier workflow shares, i.e. the first match. It is absent iff no workflow has that id. |
| TriggerForm.DetermineNewSelectedWorkflowId | src/views/TriggerWorkflowFormView.tsx:44-62 | A non-empty initial id always wins. Otherwise a current id still in a non-empty list stays, else the first fetched id is taken. With an empty list the result is the current id or "". The result is always the initial id, a fetched id, or current-or-"". |
| TriggerForm.SelectionIsStable | src/views/TriggerWorkflowFormView.tsx:44-62 | Re-running the selection with its own result as the current id changes nothing. |
| TriggerForm.SelectionComesFromList | src/views/TriggerWorkflowFormView.tsx:52-59 | Without an initial id, a non-empty list always yields one of its ids. |
| TriggerForm.SelectedWorkflowDisplayName | src/views/TriggerWorkflowFormView.tsx:146-158 | The initial name while the initial id is selected. Otherwise the first non-empty of the selected name, the initial name, the id and "Selected Workflow". Never empty. |
| TriggerForm.NavigationTitleDisplay | src/views/TriggerWorkflowFormView.tsx:214-222 | Never empty. It is the selected workflow's name when that is non-empty. Failing that, it is the initial name while the initial workflow is selected. Otherwise it is "Trigger n8n Workflow". |
| TriggerForm.NavigationTitle | src/views/TriggerWorkflowFormView.tsx:227-231 | "Trigger: " followed by the display text, except the default title, which is shown bare. |
| TriggerForm.TitleNeverDoublePrefixed | src/views/TriggerWorkflowFormView.tsx:227-231 | The title is never "Trigger: Trigger n8n Workflow" and always starts with "Trigger". |
| TriggerForm.DropdownItems | src/views/TriggerWorkflowFormView.tsx:255-277 | The entries in order: a "(Pre-selected)" entry for the initial workflow iff its id and name are non-empty and no fetched workflow has that id; then every fetched workflow as (id, name), in list order; then a "(Loading...)" entry iff the list is loading, empty, and the initial id and name are non-empty. Nothing else. Every entry's value is a fetched id or the initial id. |
| TriggerForm.InitialWorkflowAlwaysOffered | src/views/TriggerWorkflowFormView.tsx:255-263 | A workflow handed over with id and name is always selectable. |
| TriggerForm.DropdownError | src/views/TriggerWorkflowFormView.tsx:248-252 | An error iff loading is done, the list is non-empty and nothing is selected. |
| TriggerForm.LoadedSelectionShowsNoError | src/views/TriggerWorkflowFormView.tsx:126-130 | After a load of workflows with non-empty ids, the selection logic never leaves the dropdown in error. |
| TriggerForm.HandleSubmit | src/views/TriggerWorkflowFormView.tsx:162-201 | An empty selection stops first. A JSON error is put on the field and nothing is sent. Otherwise the outcome is the JSON trigger action for the selected id and the typed text, called with the form's display name. |
| TriggerForm.SubmittedTriggerAlwaysSends | src/views/TriggerWorkflowFormView.tsx:194-200 | A submission past the form's checks always reaches the transport once preferences are set. |
| TriggerForm.JsonBlurError | src/views/TriggerWorkflowFormView.tsx:204-211 | Blank text clears the error. An error is shown iff the text is not blank and the parser throws. |
| TriggerForm.BlurErrorNamesCause | src/views/TriggerWorkflowFormView.tsx:209-210 | An error shown on blur carries the parser's own message. |
| TriggerForm.BlurAgreesWithSubmit | src/views/TriggerWorkflowFormView.tsx:194-211 | The field shows an error on blur exactly when a submission would stop on it, with the same text. |
| DetailView.FetchDetails | src/views/WorkflowDetailView.tsx:41-71 | An empty id ends loading with no workflow, no request and the "no id" toast. Otherwise it asks for that id and shows the result, or no workflow and a toast naming the workflow. |
| DetailView.EmptyIdNeverFetches | src/views/WorkflowDetailView.tsx:43-51 | With an empty id the outcome does not depend on the fetch function. |
| DetailView.MarkdownContent | src/views/WorkflowDetailView.tsx:73-82 | The loading text, then the error text naming the id, then `# name`, from which the name reads back. |
| DetailView.MarkdownNamesSubject | src/views/WorkflowDetailView.tsx:73-82 | Every markdown contains the initial name, the id or the workflow's name, as its state calls for. |
| DetailView.NavigationTitle | src/views/WorkflowDetailView.tsx:84-85 | The name, else the initial name, else "Workflow " with the id. Never empty. |
| DetailView.NodeCount | src/views/WorkflowDetailView.tsx:87 | The number of nodes, or 0 without a workflow or nodes. |
| DetailView.ConnectionCount | src/views/WorkflowDetailView.tsx:88-100 | 0 without connections. Otherwise the nested fold equals the number of connection targets (graph edges), with undefined outputs counting 0. |
| DetailView.ConnectionCountAdditive | src/views/WorkflowDetailView.tsx:90-99 | The count of two groups of source nodes is the sum of their counts. |
| DetailView.UndefinedOutputsCountZero | src/views/WorkflowDetailView.tsx:95 | A node whose outputs are all undefined adds no targets. |
| FormatUtils.ConvertResponseToStringForCopy | src/utils/formatUtils.ts:13-33 | "" for null or undefined. A string as it is. "true"/"false" for booleans. The serialiser's text, or the fixed error text, for arrays and objects. |
| FormatUtils.StringCopiedVerbatim | src/utils/formatUtils.ts:17-19 | A string's copy is the string itself, whatever the serialisers. |
| FormatUtils.SanitizeStatusText | src/utils/formatUtils.ts:50-53 | Either "" or the text itself. Non-empty iff the text is non-empty and shorter than 50 UTF-16 units. |
| FormatUtils.FormatTriggerResponseMessage | src/utils/formatUtils.ts:43-65 | A 2xx status gives the "triggered successfully (Status: n)." template. Any other gives "trigger attempt finished (Status: n[ text])". The copy text is the converted response. |
| FormatUtils.SuccessIgnoresStatusText | src/utils/formatUtils.ts:57-58 | For a 2xx status the status text makes no difference. |
| FormatUtils.LongStatusTextDropped | src/utils/formatUtils.ts:52-53 | A status text of 50 or more units gives the same message as none. |
| FormatUtils.MessageNamesWorkflowAndStatus | src/utils/formatUtils.ts:57-61 | The message contains the workflow name and the status. A failure message also contains a kept status text. |
| FormatUtils.GetN8nInstanceBaseUrl | src/utils/formatUtils.ts:72-83 | "" without a URL or when it does not parse. Otherwise the protocol, then "//" and the host. |
| FormatUtils.NoUrlNoAddress | src/utils/formatUtils.ts:72-83 | Without a URL the address is "", whatever the URL parser. |

## Left out

- The HTTP library itself is not modelled: real HTTP, timeouts and
  `axios.isAxiosError`. The transport is an abstract function from the
  request to its outcome.
- `JSON.parse`, `JSON.stringify`, `String(number)` and the `URL` constructor
  are foreign library calls. They are function parameters with no assumed
  behaviour.
- `getPreferenceValues` is ambient state. The preferences are a parameter.
- The `console.warn` for a discarded mismatched record is a logging side
  effect. Only the null result is modelled.
- Toasts, clipboard actions, navigation, loading indicators, React hooks and
  effects are not modelled. This includes the overlapping asynchronous
  re-fetches on every keystroke and the success toast with its copy action.
  They are UI and concurrency concerns.
- `Date`/`toLocaleString` formatting of timestamps in the detail metadata is
  locale- and clock-dependent.
- The list and item views, the toast helpers, the command's re-export and the
  lint configuration are pure rendering or tooling with no logic to verify.
- The TypeScript casts from raw response data to `WorkflowSummary` and
  `WorkflowFull` are unchecked in the source. The list command and the views
  work on typed records, and the model does not relate them to the raw `Json`
  the service returns.
- Object key order of `WorkflowConnections` is not modelled. It is a list of
  per-node entries whose source-node keys are not required to be distinct.
  Addition does not depend on the order.
- The `String(...)` fallback in `_convertResponseToStringForCopy` cannot throw
  for JSON values, so its error text is unreachable in the model.
- ListWorkflowsCommand.FilterByName: letter case is folded for ASCII letters
  only, because `toLowerCase` on the rest of Unicode is not modelled. The same
  holds for the method name in `N8nRequest.BuildN8nHeaders`.
- FormatUtils.FormatTriggerResponseMessage: the status is an integer, so the
  JavaScript rendering of a fractional or non-finite number is not modelled.
- N8nErrors.ExtractN8nErrorMessage: the status is an integer for the same
  reason.
- DetailView.FetchDetails: the fetch is a parameter returning typed records.
  It is not wired to `WorkflowActions.GetWorkflowDetails`, whose result is raw
  `Json` (see the cast above).
