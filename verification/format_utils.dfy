/** src/utils/formatUtils.ts: the text shown and copied after a trigger, and
    the instance address derived from the configured URL. */
module FormatUtils {
  import opened Wrappers
  import opened Text
  import opened JsonData
  import opened Types

  /** `JSON.stringify(v, null, 2)`: the text, or `None` when it throws. */
  type Stringify = Json -> Option<string>

  /** `String(n)` for a JavaScript number. */
  type NumberText = real -> string

  const StringifyFailedText := "[Error: Could not stringify response object]"

  /** `_convertResponseToStringForCopy`: nothing for `null` or `undefined`, a
      string as it is, an array or object as indented JSON (or a fixed error
      text), and any other value through `String`. */
  function ConvertResponseToStringForCopy(
    responseData: Option<Json>, stringify: Stringify, numberText: NumberText): (r: string)
    ensures responseData.None? || responseData == Some(Null) ==> r == ""
    ensures responseData.Some? && responseData.value.Str? ==> r == responseData.value.str
    ensures responseData == Some(Bool(true)) ==> r == "true"
    ensures responseData == Some(Bool(false)) ==> r == "false"
    ensures responseData.Some? && responseData.value.Num? ==> r == numberText(responseData.value.n)
    ensures responseData.Some? && (responseData.value.Arr? || responseData.value.Obj?) ==>
              r == stringify(responseData.value).GetOr(StringifyFailedText)
  {
    match responseData
    case None => ""
    case Some(v) =>
      match v
      case Null => ""
      case Str(s) => s
      case Arr(_) => if stringify(v).Some? then stringify(v).value else StringifyFailedText
      case Obj(_) => if stringify(v).Some? then stringify(v).value else StringifyFailedText
      case Bool(b) => if b then "true" else "false"
      case Num(n) => numberText(n)
  }

  /** Only string data is copied without any serialiser: the copy of a string
      does not depend on `JSON.stringify` or `String`. */
  lemma StringCopiedVerbatim(s: string, f1: Stringify, f2: Stringify, n1: NumberText, n2: NumberText)
    ensures ConvertResponseToStringForCopy(Some(Str(s)), f1, n1) == s
    ensures ConvertResponseToStringForCopy(Some(Str(s)), f1, n1) == ConvertResponseToStringForCopy(Some(Str(s)), f2, n2)
  {
  }

  /** The longest status text, in UTF-16 units, that a message may quote, plus one. */
  const SaneStatusTextLimit := 50

  /** The status text when it is non-empty and shorter than the limit, else "". */
  function SanitizeStatusText(statusText: string): (r: string)
    ensures r == "" || r == statusText
    ensures r != "" <==> statusText != "" && Utf16Length(statusText) < SaneStatusTextLimit
    ensures Utf16Length(r) < SaneStatusTextLimit
  {
    if statusText != "" && Utf16Length(statusText) < SaneStatusTextLimit then statusText else ""
  }

  predicate IsSuccessStatus(status: int) {
    200 <= status < 300
  }

  const WorkflowQuote := "Workflow \""
  const SuccessMiddle := "\" triggered successfully ("
  const AttemptMiddle := "\" trigger attempt finished ("
  const StatusLabel := "Status: "
  const SuccessEnd := ")."
  const AttemptEnd := "). Check details if an error occurred."

  /** `Status: <status>` and, when there is one, a space and the sanitised text. */
  function StatusPart(status: int, sanitizedStatusText: string): string {
    StatusLabel + IntToString(status) + (if sanitizedStatusText != "" then " " + sanitizedStatusText else "")
  }

  /** The message and the copy text of a trigger response. */
  datatype FormattedTrigger = FormattedTrigger(message: string, fullResponseForCopy: string)

  /** `formatTriggerResponseMessage`: a 2xx status reads "triggered
      successfully" with the bare status; any other reads "trigger attempt
      finished" with the status and its sanitised text. */
  function FormatTriggerResponseMessage(
    responseData: Option<Json>, status: int, statusText: string, workflowDisplayName: string,
    stringify: Stringify, numberText: NumberText): (f: FormattedTrigger)
    ensures f.fullResponseForCopy == ConvertResponseToStringForCopy(responseData, stringify, numberText)
    ensures IsSuccessStatus(status) ==>
              f.message == WorkflowQuote + workflowDisplayName + SuccessMiddle + (StatusLabel + IntToString(status)) + SuccessEnd
    ensures !IsSuccessStatus(status) ==>
              f.message == WorkflowQuote + workflowDisplayName + AttemptMiddle
                           + StatusPart(status, SanitizeStatusText(statusText)) + AttemptEnd
  {
    var fullResponseForCopy := ConvertResponseToStringForCopy(responseData, stringify, numberText);
    var sanitizedStatusText := SanitizeStatusText(statusText);
    var responseMessage :=
      if status >= 200 && status < 300 then
        WorkflowQuote + workflowDisplayName + SuccessMiddle + (StatusLabel + IntToString(status)) + SuccessEnd
      else
        WorkflowQuote + workflowDisplayName + AttemptMiddle + StatusPart(status, sanitizedStatusText) + AttemptEnd;
    FormattedTrigger(responseMessage, fullResponseForCopy)
  }

  /** A successful status is reported without its status text. */
  lemma SuccessIgnoresStatusText(
    responseData: Option<Json>, status: int, text1: string, text2: string, name: string,
    stringify: Stringify, numberText: NumberText)
    requires IsSuccessStatus(status)
    ensures FormatTriggerResponseMessage(responseData, status, text1, name, stringify, numberText)
         == FormatTriggerResponseMessage(responseData, status, text2, name, stringify, numberText)
  {
  }

  /** A status text of 50 or more units is dropped: the message is the one
      for no status text at all. */
  lemma LongStatusTextDropped(
    responseData: Option<Json>, status: int, statusText: string, name: string,
    stringify: Stringify, numberText: NumberText)
    requires Utf16Length(statusText) >= SaneStatusTextLimit
    ensures FormatTriggerResponseMessage(responseData, status, statusText, name, stringify, numberText)
         == FormatTriggerResponseMessage(responseData, status, "", name, stringify, numberText)
  {
  }

  /** Splitting a five-part message around its second and fourth parts. */
  lemma RegroupFive(a: string, b: string, c: string, d: string, e: string)
    ensures a + b + c + d + e == a + b + (c + d + e)
    ensures a + b + c + d + e == (a + b + c) + d + e
  {
  }

  /** Every message names the workflow and its status; a failure message
      also quotes a short, non-empty status text. */
  lemma MessageNamesWorkflowAndStatus(
    responseData: Option<Json>, status: int, statusText: string, name: string,
    stringify: Stringify, numberText: NumberText)
    ensures var m := FormatTriggerResponseMessage(responseData, status, statusText, name, stringify, numberText).message;
            && Contains(m, name)
            && Contains(m, IntToString(status))
            && (!IsSuccessStatus(status) && SanitizeStatusText(statusText) != "" ==> Contains(m, statusText))
  {
    var m := FormatTriggerResponseMessage(responseData, status, statusText, name, stringify, numberText).message;
    var st := IntToString(status);
    var middle := if IsSuccessStatus(status) then SuccessMiddle else AttemptMiddle;
    var end := if IsSuccessStatus(status) then SuccessEnd else AttemptEnd;
    var part := if IsSuccessStatus(status) then StatusLabel + st else StatusPart(status, SanitizeStatusText(statusText));
    assert m == WorkflowQuote + name + middle + part + end;
    RegroupFive(WorkflowQuote, name, middle, part, end);
    ContainsInfix(WorkflowQuote, name, middle + part + end);
    ContainsInfix(WorkflowQuote + name + middle, part, end);
    var tail := if !IsSuccessStatus(status) && SanitizeStatusText(statusText) != "" then " " + statusText else "";
    assert part == StatusLabel + st + tail;
    ContainsInfix(StatusLabel, st, tail);
    ContainsTransitive(m, part, st);
    if !IsSuccessStatus(status) && SanitizeStatusText(statusText) != "" {
      ContainsInfix(StatusLabel + st + " ", statusText, "");
      assert StatusLabel + st + " " + statusText + "" == part;
      ContainsTransitive(m, part, statusText);
    }
  }

  /** The parts of a URL that the instance address keeps. */
  datatype UrlParts = UrlParts(protocol: string, host: string)

  /** `new URL(s)`: the parts, or `None` when it throws. */
  type UrlParser = string -> Option<UrlParts>

  /** `getN8nInstanceBaseUrl`: protocol, "//" and host of the configured URL;
      "" when no URL is configured or it does not parse. */
  function GetN8nInstanceBaseUrl(prefs: Preferences, parseUrl: UrlParser): (base: string)
    ensures prefs.n8nWebhookUrl == "" ==> base == ""
    ensures prefs.n8nWebhookUrl != "" && parseUrl(prefs.n8nWebhookUrl).None? ==> base == ""
    ensures prefs.n8nWebhookUrl != "" && parseUrl(prefs.n8nWebhookUrl).Some? ==>
              var u := parseUrl(prefs.n8nWebhookUrl).value;
              StartsWith(base, u.protocol) && base[|u.protocol|..] == "//" + u.host
  {
    if prefs.n8nWebhookUrl != "" then
      match parseUrl(prefs.n8nWebhookUrl)
      case Some(parsedUrl) =>
        var base := parsedUrl.protocol + "//" + parsedUrl.host;
        assert base[..|parsedUrl.protocol|] == parsedUrl.protocol;
        assert base[|parsedUrl.protocol|..] == "//" + parsedUrl.host;
        base
      case None => ""
    else ""
  }

  /** The address never comes from anywhere but the configured URL: without
      one, no parser is consulted. */
  lemma NoUrlNoAddress(apiToken: string, p1: UrlParser, p2: UrlParser)
    ensures GetN8nInstanceBaseUrl(Preferences("", apiToken), p1) == ""
    ensures GetN8nInstanceBaseUrl(Preferences("", apiToken), p1) == GetN8nInstanceBaseUrl(Preferences("", apiToken), p2)
  {
  }
}
