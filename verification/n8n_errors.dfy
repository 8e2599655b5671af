/** `extractN8nErrorMessage` in src/services/n8nApiService.ts: one readable,
    never empty message from a failed HTTP exchange. */
module N8nErrors {
  import opened Wrappers
  import opened Text
  import opened JsonData

  /** The `response` part of a failed exchange: each member may be missing. */
  datatype ErrorResponse = ErrorResponse(status: Option<int>, statusText: Option<string>, data: Option<Json>)

  const ErrorPrefix := "n8n API Error: "
  const UnknownStatus := "Unknown Status"
  const UnknownStatusText := "Unknown Status Text"

  /** The lower-level message the HTTP library produces for any non-2xx status. */
  const GenericStatusPhrase := "request failed with status code"

  function StatusOf(res: Option<ErrorResponse>): string {
    if res.Some? && res.value.status.Some? then IntToString(res.value.status.value) else UnknownStatus
  }

  function StatusTextOf(res: Option<ErrorResponse>): string {
    if res.Some? && res.value.statusText.Some? then res.value.statusText.value else UnknownStatusText
  }

  /** A character of an integer's decimal text. */
  predicate IsStatusChar(c: char) {
    IsAsciiDigit(c) || c == '-'
  }

  /** The length of the run of status characters that starts `s`. */
  function StatusTokenLength(s: string): (n: nat)
    ensures n <= |s|
    ensures forall i :: 0 <= i < n ==> IsStatusChar(s[i])
    ensures n < |s| ==> !IsStatusChar(s[n])
  {
    if s == [] || !IsStatusChar(s[0]) then 0 else 1 + StatusTokenLength(s[1..])
  }

  /** A text `IntTextValue` can read: an optional minus sign, then digits. */
  predicate IsIntText(t: string) {
    |t| > 0 && AllDigits(if t[0] == '-' then t[1..] else t)
  }

  /** Reads a default message back into its status (`None` for the "unknown"
      placeholder) and the status text that follows the first space after it. */
  function ReadDefaultMessage(m: string): Option<(Option<int>, string)> {
    if !StartsWith(m, ErrorPrefix) then None
    else
      var rest := m[|ErrorPrefix|..];
      var n := StatusTokenLength(rest);
      if n < |rest| && rest[n] == ' ' && IsIntText(rest[..n]) then
        Some((Some(IntTextValue(rest[..n])), rest[n + 1..]))
      else if StartsWith(rest, UnknownStatus + " ") then
        Some((None, rest[|UnknownStatus| + 1..]))
      else None
  }

  /** The status run of a text ends where the first non-status character is. */
  lemma {:induction false} TokenLengthOfJoin(a: string, b: string)
    requires forall i :: 0 <= i < |a| ==> IsStatusChar(a[i])
    requires |b| > 0 && !IsStatusChar(b[0])
    ensures StatusTokenLength(a + b) == |a|
  {
    if a != [] {
      assert (a + b)[1..] == a[1..] + b;
      TokenLengthOfJoin(a[1..], b);
    } else {
      assert a + b == b;
    }
  }

  /** Every character of an integer's text is a status character. */
  lemma IntTextIsStatusRun(n: int)
    ensures forall i :: 0 <= i < |IntToString(n)| ==> IsStatusChar(IntToString(n)[i])
  {
    var st := IntToString(n);
    if n < 0 {
      assert st == "-" + NatToString(-n);
      assert forall i :: 1 <= i < |st| ==> st[i] == NatToString(-n)[i - 1];
    }
  }

  /** With a status number, the number and the status text are read back. */
  lemma KnownStatusReadsBack(status: int, statusText: string)
    ensures ReadDefaultMessage(ErrorPrefix + IntToString(status) + " " + statusText)
         == Some((Some(status), statusText))
  {
    var st := IntToString(status);
    var m := ErrorPrefix + st + " " + statusText;
    assert m[..|ErrorPrefix|] == ErrorPrefix;
    var rest := m[|ErrorPrefix|..];
    assert rest == st + (" " + statusText);
    IntTextIsStatusRun(status);
    TokenLengthOfJoin(st, " " + statusText);
    assert rest[..|st|] == st;
    assert rest[|st|] == ' ';
    IntToStringRoundTrip(status);
    assert rest[|st| + 1..] == statusText;
  }

  /** With the placeholder, no number and the status text are read back. */
  lemma UnknownStatusReadsBack(statusText: string)
    ensures ReadDefaultMessage(ErrorPrefix + UnknownStatus + " " + statusText) == Some((None, statusText))
  {
    var m := ErrorPrefix + UnknownStatus + " " + statusText;
    assert m[..|ErrorPrefix|] == ErrorPrefix;
    var rest := m[|ErrorPrefix|..];
    assert rest == UnknownStatus + " " + statusText;
    assert rest[0] == 'U';
    assert StatusTokenLength(rest) == 0;
    assert rest[..|UnknownStatus| + 1] == UnknownStatus + " ";
    assert rest[|UnknownStatus| + 1..] == statusText;
  }

  /** The layout "prefix, status, space, status text" keeps the prefix in
      front and contains both parts. */
  lemma DefaultLayoutNamesParts(status: string, statusText: string)
    ensures var m := ErrorPrefix + status + " " + statusText;
            StartsWith(m, ErrorPrefix) && Contains(m, status) && Contains(m, statusText)
  {
    var m := ErrorPrefix + status + " " + statusText;
    assert m[..|ErrorPrefix|] == ErrorPrefix;
    assert m == ErrorPrefix + status + (" " + statusText);
    ContainsInfix(ErrorPrefix, status, " " + statusText);
    assert m == (ErrorPrefix + status + " ") + statusText + "";
    ContainsInfix(ErrorPrefix + status + " ", statusText, "");
  }

  /** The default message names the status and the status text, or their
      "unknown" placeholders, in that order. */
  function DefaultErrorMessage(res: Option<ErrorResponse>): (r: string)
    ensures StartsWith(r, ErrorPrefix)
    ensures res.None? ==> r == ErrorPrefix + UnknownStatus + " " + UnknownStatusText
    ensures res.Some? && res.value.status.Some? ==> Contains(r, IntToString(res.value.status.value))
    ensures res.Some? && res.value.status.None? ==> Contains(r, UnknownStatus)
    ensures res.Some? && res.value.statusText.Some? ==> Contains(r, res.value.statusText.value)
    ensures res.Some? && res.value.statusText.None? ==> Contains(r, UnknownStatusText)
    ensures ReadDefaultMessage(r) ==
              Some((if res.Some? && res.value.status.Some? then Some(res.value.status.value) else None, StatusTextOf(res)))
  {
    var status := StatusOf(res);
    var statusText := StatusTextOf(res);
    var r := ErrorPrefix + status + " " + statusText;
    DefaultLayoutNamesParts(status, statusText);
    if res.Some? && res.value.status.Some? then
      KnownStatusReadsBack(res.value.status.value, statusText);
      r
    else
      UnknownStatusReadsBack(statusText);
      r
  }

  /** The body's structured `message` member when it is a non-blank string. */
  predicate HasStructuredMessage(body: Json) {
    HasKey(body, "message") && body.fields["message"].Str? && !IsBlank(body.fields["message"].str)
  }

  /** The detail a response body offers: its non-blank `message` member, else
      the body itself when it is a non-blank string, else nothing (""). */
  function ResponseDetail(res: Option<ErrorResponse>): (d: string)
    ensures d != "" ==> !IsBlank(d)
    ensures d != "" ==> res.Some? && res.value.data.Some?
    ensures res.Some? && res.value.data.Some? && HasStructuredMessage(res.value.data.value) ==>
              d == res.value.data.value.fields["message"].str
    ensures res.Some? && res.value.data.Some? && !HasStructuredMessage(res.value.data.value) ==>
              d == (if res.value.data.value.Str? && !IsBlank(res.value.data.value.str)
                    then res.value.data.value.str else "")
  {
    if res.Some? && res.value.data.Some? && Truthy(res.value.data.value) then
      var body := res.value.data.value;
      if body.Obj? && "message" in body.fields && body.fields["message"].Str?
         && Trim(body.fields["message"].str) != "" then
        body.fields["message"].str
      else if body.Str? && Trim(body.str) != "" then
        body.str
      else
        ""
    else
      ""
  }

  /** The lower-level message is informative: present and not the generic
      status-code phrase (compared case-insensitively). */
  predicate Informative(message: string) {
    message != "" && !Contains(Lower(message), GenericStatusPhrase)
  }

  /** `extractN8nErrorMessage`: the body's detail appended to the default
      message; failing that, an informative lower-level message verbatim;
      failing that, the default message. Never empty. */
  function ExtractN8nErrorMessage(res: Option<ErrorResponse>, message: string): (r: string)
    ensures r != ""
    ensures ResponseDetail(res) != "" ==> r == DefaultErrorMessage(res) + ": " + ResponseDetail(res)
    ensures ResponseDetail(res) == "" && Informative(message) ==> r == message
    ensures ResponseDetail(res) == "" && !Informative(message) ==> r == DefaultErrorMessage(res)
  {
    var defaultMessage := DefaultErrorMessage(res);
    var detailedMessage := ResponseDetail(res);
    if detailedMessage != "" then
      defaultMessage + ": " + detailedMessage
    else if message != "" && !Contains(Lower(message), GenericStatusPhrase) then
      message
    else
      defaultMessage
  }

  /** The generic status-code phrase never reaches the caller on its own: a
      result that mentions it is always the composed "n8n API Error" message. */
  lemma GenericPhraseNeverVerbatim(res: Option<ErrorResponse>, message: string)
    ensures var r := ExtractN8nErrorMessage(res, message);
            Contains(Lower(r), GenericStatusPhrase) ==> StartsWith(r, ErrorPrefix)
  {
    var d := DefaultErrorMessage(res);
    var detail := ResponseDetail(res);
    if detail != "" {
      PrefixSurvivesAppend(d, ": " + detail);
      assert d + ": " + detail == d + (": " + detail);
    } else if Informative(message) {
      assert ExtractN8nErrorMessage(res, message) == message;
    } else {
      assert ExtractN8nErrorMessage(res, message) == d;
    }
  }

  /** Appending to a message keeps its prefix. */
  lemma PrefixSurvivesAppend(m: string, tail: string)
    requires StartsWith(m, ErrorPrefix)
    ensures StartsWith(m + tail, ErrorPrefix)
  {
    assert (m + tail)[..|ErrorPrefix|] == m[..|ErrorPrefix|];
  }

  /** A structured error body is reported together with the HTTP status, so
      the message names both (404 and "No such workflow", say). */
  lemma StructuredMessageNamesStatus(status: int, statusText: Option<string>, body: Json, message: string)
    requires HasStructuredMessage(body)
    ensures var r := ExtractN8nErrorMessage(Some(ErrorResponse(Some(status), statusText, Some(body))), message);
            && Contains(r, IntToString(status))
            && Contains(r, body.fields["message"].str)
  {
    var res := Some(ErrorResponse(Some(status), statusText, Some(body)));
    var m := body.fields["message"].str;
    var st := IntToString(status);
    var d := DefaultErrorMessage(res);
    var r := ExtractN8nErrorMessage(res, message);
    assert r == d + ": " + m by {
      assert ResponseDetail(res) == m;
      assert m != "" by { assert Trim("") == ""; }
    }
    var sto := StatusTextOf(res);
    assert d == ErrorPrefix + st + " " + sto;
    RegroupDetailedMessage(ErrorPrefix, st, sto, m);
    ContainsInfix(ErrorPrefix, st, " " + sto + ": " + m);
    ContainsInfix(d + ": ", m, "");
  }

  /** Two groupings of a detailed message, for locating its parts. */
  lemma RegroupDetailedMessage(prefix: string, status: string, statusText: string, detail: string)
    ensures prefix + status + " " + statusText + ": " + detail
         == prefix + status + (" " + statusText + ": " + detail)
    ensures prefix + status + " " + statusText + ": " + detail
         == (prefix + status + " " + statusText + ": ") + detail + ""
  {
  }

  /** A text shorter than the searched phrase cannot contain it. */
  lemma ContainsNeedsRoom(s: string, sub: string)
    requires Contains(s, sub)
    ensures |sub| <= |s|
  {
    ContainsIffOccurs(s, sub);
  }

  /** Without a response, an informative lower-level message such as
      "Network timeout" is returned exactly. */
  lemma NetworkTimeoutVerbatim()
    ensures ExtractN8nErrorMessage(None, "Network timeout") == "Network timeout"
  {
    if Contains(Lower("Network timeout"), GenericStatusPhrase) {
      ContainsNeedsRoom(Lower("Network timeout"), GenericStatusPhrase);
    }
  }
}
