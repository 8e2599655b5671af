/** `parseJsonInput` in src/utils/jsonUtils.ts: the gate every optional JSON
    payload passes before it is sent. `JSON.parse` is the parameter `parse`. */
module JsonUtils {
  import opened Wrappers
  import opened Text
  import opened JsonData

  /** `{ data?: unknown; error?: string }`: `data == None` is `undefined`,
      which differs from a parsed JSON `null` (`Some(Null)`). */
  datatype ParsedInput = ParsedInput(data: Option<Json>, error: Option<string>)

  type JsonParser = string -> ParseResult

  const InvalidJsonPrefix := "Invalid JSON format: "
  const InvalidJsonSuffix := ". Please correct or leave empty."
  const UnknownJsonParseError := "Unknown JSON parsing error"

  /** The message of what `JSON.parse` threw, or a fixed text for a non-`Error`. */
  function ThrownMessage(t: Thrown): (m: string)
    ensures t.ErrorInstance? ==> m == t.message
    ensures t.NonError? ==> m == UnknownJsonParseError
  {
    match t
    case ErrorInstance(message) => message
    case NonError => UnknownJsonParseError
  }

  /** The user-facing error for a parser message: it asks to fix or clear the field. */
  function InvalidJsonMessage(detail: string): string {
    InvalidJsonPrefix + detail + InvalidJsonSuffix
  }

  /** The parser message an error produced by `InvalidJsonMessage` carries. */
  function InvalidJsonDetail(message: string): Option<string> {
    if |message| >= |InvalidJsonPrefix| + |InvalidJsonSuffix|
       && StartsWith(message, InvalidJsonPrefix)
       && message[|message| - |InvalidJsonSuffix|..] == InvalidJsonSuffix
    then Some(message[|InvalidJsonPrefix|..|message| - |InvalidJsonSuffix|])
    else None
  }

  /** The error text loses nothing: the parser's message can be read back from it. */
  lemma InvalidJsonMessageRoundTrip(detail: string)
    ensures InvalidJsonDetail(InvalidJsonMessage(detail)) == Some(detail)
  {
    var m := InvalidJsonMessage(detail);
    assert m[..|InvalidJsonPrefix|] == InvalidJsonPrefix;
    assert m[|m| - |InvalidJsonSuffix|..] == InvalidJsonSuffix;
    assert m[|InvalidJsonPrefix|..|m| - |InvalidJsonSuffix|] == detail;
  }

  /** `parseJsonInput`: blank input is "no payload" (neither data nor error);
      parsable input yields its value; anything else yields only an error
      wrapping the parser's message. Data and error are never both set. */
  function ParseJsonInput(jsonStr: string, parse: JsonParser): (r: ParsedInput)
    ensures !(r.data.Some? && r.error.Some?)
    ensures IsBlank(jsonStr) ==> r == ParsedInput(None, None)
    ensures !IsBlank(jsonStr) && parse(jsonStr).Parsed? ==> r == ParsedInput(Some(parse(jsonStr).value), None)
    ensures !IsBlank(jsonStr) && parse(jsonStr).Threw? ==>
              r == ParsedInput(None, Some(InvalidJsonMessage(ThrownMessage(parse(jsonStr).thrown))))
    ensures r.error.Some? ==> r.error.value != ""
  {
    if Trim(jsonStr) == "" then
      ParsedInput(None, None)
    else
      match parse(jsonStr)
      case Parsed(value) => ParsedInput(Some(value), None)
      case Threw(e) =>
        ParsedInput(None, Some(InvalidJsonMessage(ThrownMessage(e))))
  }

  /** Empty and all-space inputs are "no payload", not an error. */
  lemma BlankInputsCarryNoPayload(parse: JsonParser)
    ensures ParseJsonInput("", parse) == ParsedInput(None, None)
    ensures ParseJsonInput("   ", parse) == ParsedInput(None, None)
  {
    TrimEmptyIffAllWhitespace("   ");
  }

  /** Every parse error says "Invalid" and carries the parser's message. */
  lemma ParseErrorNamesCause(jsonStr: string, parse: JsonParser)
    requires !IsBlank(jsonStr) && parse(jsonStr).Threw?
    ensures var r := ParseJsonInput(jsonStr, parse);
            && r.error.Some?
            && Contains(r.error.value, "Invalid")
            && InvalidJsonDetail(r.error.value) == Some(ThrownMessage(parse(jsonStr).thrown))
  {
    var detail := ThrownMessage(parse(jsonStr).thrown);
    var m := InvalidJsonMessage(detail);
    assert m[..7] == InvalidJsonPrefix[..7] == "Invalid";
    assert StartsWith(m, "Invalid");
    InvalidJsonMessageRoundTrip(detail);
  }
}
