/**
 * The Markdown report the test runner writes for each tool test: a status
 * line, the tool's name, the request headers, the description, the
 * parameters, the response and, for a test that did not pass, the error.
 * A response object whose first content item has a text has that text
 * moved into a block of its own and replaced by a clipboard mark in the
 * caller's object. JSON.parse and the indented JSON.stringify are
 * parameters; writing the file is not modelled.
 */
module TestReport {
  import opened Wrappers
  import opened Js
  import Strings

  datatype Status = Pending | Passed | Failed | Skipped | ExpectedFailure

  const Fence: string := "```"
  /** The clipboard mark that replaces a moved text. */
  const Clipboard: string := "\U{1F4CB}"
  /** The status line's initial value, which every status overwrites. */
  const UnknownStatus: string := "\U{26A0}\U{FE0F} RESULT STATUS UNKNOWN"
  const PassedLine: string := "\U{2705}  PASSED"
  const ExpectedFailureLine: string := "\U{26A0}\U{FE0F}  Expected failure - test validation successful"
  const FailedLine: string := "\U{274C}  FAILED"

  /** A plain fenced block. */
  function MdText(s: string): string {
    Fence + "\n" + s + "\n" + Fence
  }

  /** A fenced block tagged `description`. */
  function MdDescr(s: string): string {
    Fence + "description\n" + s + "\n" + Fence
  }

  /** A fenced JSON block: the indented JSON of a truthy value, a falsy value as `${v}` renders it. */
  function MdJson(v: Value, pretty: Value -> string): string {
    Fence + "json\n" + (if Truthy(v) then pretty(v) else ToStr(v)) + "\n" + Fence
  }

  /** The status line: passed, expected failure, or failed for every other status. */
  function StatusLine(status: Status): (r: string)
    ensures status.Passed? ==> r == PassedLine
    ensures status.ExpectedFailure? ==> r == ExpectedFailureLine
    ensures !status.Passed? && !status.ExpectedFailure? ==> r == FailedLine
    ensures r != UnknownStatus
  {
    if status.Passed? then PassedLine
    else if status.ExpectedFailure? then ExpectedFailureLine
    else FailedLine
  }

  /**
   * The error section: none for a passed test; otherwise the full MCP
   * response when there is one, which then stands in for both the error
   * message and its details; otherwise the error message, followed by the
   * details when there are any.
   */
  function ErrorSection(status: Status, error: Value, errorDetails: Value, fullMcpResponse: Value, pretty: Value -> string): (r: string)
    ensures r == "" <==> status.Passed?
    ensures !status.Passed? && Truthy(fullMcpResponse) ==>
      r == "## MCP Response (as seen by agent)\n\n" + MdJson(fullMcpResponse, pretty) + "\n\n"
    ensures !status.Passed? && !Truthy(fullMcpResponse) ==>
      && Strings.StartsWith(r, "## Error\n\n" + MdText(ToStr(error)) + "\n\n")
      && (Truthy(errorDetails) <==> |r| > |"## Error\n\n" + MdText(ToStr(error)) + "\n\n"|)
  {
    if status.Passed? then ""
    else if Truthy(fullMcpResponse) then
      "## MCP Response (as seen by agent)\n\n" + MdJson(fullMcpResponse, pretty) + "\n\n"
    else
      var head := "## Error\n\n" + MdText(ToStr(error)) + "\n\n";
      var r := head + (if Truthy(errorDetails) then "## Error Details\n\n" + MdJson(errorDetails, pretty) + "\n\n" else "");
      assert r[..|head|] == head;
      r
  }

  /** With a full MCP response at hand, the error message and its details are not shown. */
  lemma FullResponseTakesPrecedence(status: Status, e1: Value, d1: Value, e2: Value, d2: Value, full: Value, pretty: Value -> string)
    requires Truthy(full)
    ensures ErrorSection(status, e1, d1, full, pretty) == ErrorSection(status, e2, d2, full, pretty)
  {
  }

  /** One `  name: value` line per header, in the order the headers were given. */
  function HeaderLines(entries: seq<(string, string)>): (r: seq<string>)
    ensures |r| == |entries|
    ensures forall i :: 0 <= i < |entries| ==> r[i] == "  " + entries[i].0 + ": " + entries[i].1
  {
    seq(|entries|, i requires 0 <= i < |entries| => "  " + entries[i].0 + ": " + entries[i].1)
  }

  /** The headers block: empty without headers, otherwise a `Headers:` line and one line per header. */
  function HeadersBlock(requestHeaders: Option<seq<(string, string)>>): (r: string)
    ensures r == "" <==> requestHeaders.None? || requestHeaders.value == []
    ensures requestHeaders.Some? && requestHeaders.value != [] ==>
      r == "\nHeaders:\n" + Strings.Join(HeaderLines(requestHeaders.value), "\n") + "\n"
  {
    if requestHeaders.Some? && |requestHeaders.value| > 0 then
      "\nHeaders:\n" + Strings.Join(HeaderLines(requestHeaders.value), "\n") + "\n"
    else ""
  }

  /** `Array.isArray(v?.content) && v.content[0]?.text`: the first content item has a truthy text. */
  predicate HasText(v: Value) {
    var content := Get(v, "content");
    content.Arr? && |content.items| > 0 && Truthy(Get(content.items[0], "text"))
  }

  /** The text of the first content item. */
  function FirstText(v: Value): Value
    requires HasText(v)
  {
    Get(Get(v, "content").items[0], "text")
  }

  /** `v.content[0].text = '📋'`: only that one property changes. */
  function WithClipboard(v: Value): (r: Value)
    requires HasText(v)
    ensures r.Obj? && r.props.Keys == v.props.Keys
    ensures forall k :: k != "content" ==> Get(r, k) == Get(v, k)
    ensures Get(r, "content").Arr? && |Get(r, "content").items| == |Get(v, "content").items|
    ensures forall i :: 1 <= i < |Get(v, "content").items| ==> Get(r, "content").items[i] == Get(v, "content").items[i]
    ensures Get(Get(r, "content").items[0], "text") == Str(Clipboard)
    ensures forall k :: k != "text" ==> Get(Get(r, "content").items[0], k) == Get(Get(v, "content").items[0], k)
    ensures HasText(r)
  {
    var items := Get(v, "content").items;
    var first := SetProp(items[0], "text", Str(Clipboard));
    SetProp(v, "content", Arr(items[0 := first]))
  }

  /** Moving the text again changes nothing more: a second report shows the clipboard mark as the text. */
  lemma ClipboardIsStable(v: Value)
    requires HasText(v)
    ensures WithClipboard(WithClipboard(v)) == WithClipboard(v)
    ensures FirstText(WithClipboard(v)) == Str(Clipboard)
  {
    var w := WithClipboard(v);
    var items := Get(w, "content").items;
    assert items[0].Obj?;
    assert items[0].props["text" := Str(Clipboard)] == items[0].props;
    assert items[0 := items[0]] == items;
    assert w.props["content" := Arr(items)] == w.props;
  }

  /** What the response part gives: its Markdown, and the caller's response as it is afterwards. */
  datatype ResponsePart = ResponsePart(text: string, response: Value)

  /**
   * A parsed response that is an object, an array or null: its JSON block,
   * with the first content item's text moved to a Formatted Text block
   * after it when there is one.
   */
  function ObjectSection(parsed: Value, pretty: Value -> string): (r: string)
    ensures !HasText(parsed) ==> r == "## Response\n\n" + MdJson(parsed, pretty) + "\n\n"
    ensures HasText(parsed) ==>
      r == "## Response\n\n" + MdJson(WithClipboard(parsed), pretty) + "\n\n"
           + "## Formatted Text " + Clipboard + "\n" + MdText(ToStr(FirstText(parsed))) + "\n\n"
  {
    var shown := if HasText(parsed) then WithClipboard(parsed) else parsed;
    var addText := if HasText(parsed) then "## Formatted Text " + Clipboard + "\n" + MdText(ToStr(FirstText(parsed))) + "\n\n" else "";
    "## Response\n\n" + MdJson(shown, pretty) + "\n\n" + addText
  }

  /** `typeof v === 'object'`: objects, arrays and null. */
  predicate TypeofObject(v: Value) {
    v.Obj? || v.Arr? || v.Null?
  }

  /**
   * The response part: nothing for a missing response; a string is parsed
   * as JSON, and shown as plain text when it is not JSON; an object or
   * array is shown as JSON. Only an object the caller passed in is
   * changed, never one parsed from a string.
   */
  function ResponseSection(response: Value, parse: string -> Result<Value, string>, pretty: Value -> string): (r: ResponsePart)
    ensures IsNullish(response) ==> r == ResponsePart("", response)
    ensures response.Bool? || response.Num? ==> r == ResponsePart("", response)
    ensures response.Str? ==> r.response == response
    ensures response.Str? && parse(response.s).Failure? ==>
      r.text == "## Response\n\n" + MdText(response.s) + "\n\n"
    ensures response.Str? && parse(response.s).Success? ==>
      r.text == (if TypeofObject(parse(response.s).value) then ObjectSection(parse(response.s).value, pretty) else "")
    ensures IsObjectLike(response) ==> r.text == ObjectSection(response, pretty)
    ensures IsObjectLike(response) ==> r.response == if HasText(response) then WithClipboard(response) else response
  {
    match response
    case Str(s) =>
      (match parse(s)
       case Failure(_) => ResponsePart("## Response\n\n" + MdText(s) + "\n\n", response)
       case Success(p) => ResponsePart(if TypeofObject(p) then ObjectSection(p, pretty) else "", response))
    case Obj(_) => ResponsePart(ObjectSection(response, pretty), if HasText(response) then WithClipboard(response) else response)
    case Arr(_) => ResponsePart(ObjectSection(response, pretty), response)
    case _ => ResponsePart("", response)
  }

  /** A string holding JSON that is not an object, an array or null (a number, say) leaves no response section. */
  lemma JsonScalarStringIsDropped(s: string, parse: string -> Result<Value, string>, pretty: Value -> string)
    requires parse(s).Success? && !TypeofObject(parse(s).value)
    ensures ResponseSection(Str(s), parse, pretty).text == ""
  {
  }

  /** The whole report, from its parts. */
  function Layout(statusLine: string, timestamp: string, duration: int, toolName: string, requestHeaders: string,
                  description: string, parameters: string, responseText: string, errorText: string): string {
    statusLine + " / " + timestamp + " / " + Strings.IntToString(duration) + "ms\n"
      + "# " + toolName + "\n"
      + requestHeaders + "\n"
      + MdDescr(description) + "\n"
      + "\n"
      + "parameters:\n"
      + parameters + "\n"
      + "\n"
      + responseText + errorText
  }

  /** One test's result. The response may be an object the caller still holds, and formatting may change it. */
  class TestResult {
    const fullId: string
    const toolName: string
    const description: string
    const parameters: Value
    const timestamp: string
    const duration: int
    const status: Status
    const marker: Option<string>
    var response: Value
    /** A message string, or null. */
    const error: Value
    const errorDetails: Value
    const fullMcpResponse: Value
    /** The headers in the order they were set. */
    const requestHeaders: Option<seq<(string, string)>>

    constructor(fullId: string, toolName: string, description: string, parameters: Value, timestamp: string,
                duration: int, status: Status, marker: Option<string>, response: Value, error: Value,
                errorDetails: Value, fullMcpResponse: Value, requestHeaders: Option<seq<(string, string)>>)
      ensures this.fullId == fullId && this.toolName == toolName && this.description == description
      ensures this.parameters == parameters && this.timestamp == timestamp && this.duration == duration
      ensures this.status == status && this.marker == marker && this.response == response
      ensures this.error == error && this.errorDetails == errorDetails && this.fullMcpResponse == fullMcpResponse
      ensures this.requestHeaders == requestHeaders
    {
      this.fullId := fullId;
      this.toolName := toolName;
      this.description := description;
      this.parameters := parameters;
      this.timestamp := timestamp;
      this.duration := duration;
      this.status := status;
      this.marker := marker;
      this.response := response;
      this.error := error;
      this.errorDetails := errorDetails;
      this.fullMcpResponse := fullMcpResponse;
      this.requestHeaders := requestHeaders;
    }
  }

  /**
   * The response part as formatResultAsMarkdown builds it, step by step.
   * A moved text is written back into the caller's object only when that
   * object is the one shown, not a copy parsed from a string.
   */
  method FormatResponse(result: TestResult, parse: string -> Result<Value, string>, pretty: Value -> string)
    returns (responseText: string)
    modifies result`response
    ensures var part := ResponseSection(old(result.response), parse, pretty);
      responseText == part.text && result.response == part.response
  {
    responseText := "";
    if !IsNullish(result.response) {
      var parsedResponse := result.response;
      var isJsonParsed := false;
      var shared := true;
      if result.response.Str? {
        match parse(result.response.s)
        case Success(p) =>
          parsedResponse := p;
          isJsonParsed := true;
          shared := false;
        case Failure(_) =>
          responseText := "## Response\n\n" + MdText(result.response.s) + "\n\n";
      } else if IsObjectLike(result.response) {
        isJsonParsed := true;
      }
      if isJsonParsed && TypeofObject(parsedResponse) {
        var text := parsedResponse;
        var addText := "";
        if HasText(parsedResponse) {
          var textContent := FirstText(parsedResponse);
          parsedResponse := WithClipboard(parsedResponse);
          if shared {
            result.response := parsedResponse;
          }
          text := parsedResponse;
          addText := "## Formatted Text " + Clipboard + "\n" + MdText(ToStr(textContent)) + "\n\n";
        }
        responseText := "## Response\n\n" + MdJson(text, pretty) + "\n\n" + addText;
      }
    }
  }

  /**
   * formatResultAsMarkdown: the status line, the error section for a test
   * that did not pass, the headers block and the response part, put
   * together in the report's fixed layout.
   */
  method FormatResultAsMarkdown(result: TestResult, parse: string -> Result<Value, string>, pretty: Value -> string)
    returns (md: string)
    modifies result`response
    ensures var part := ResponseSection(old(result.response), parse, pretty);
      && result.response == part.response
      && md == Layout(StatusLine(result.status), result.timestamp, result.duration, result.toolName,
                      HeadersBlock(result.requestHeaders), result.description, MdJson(result.parameters, pretty),
                      part.text, ErrorSection(result.status, result.error, result.errorDetails, result.fullMcpResponse, pretty))
  {
    var resultStatus := UnknownStatus;
    var errorText := "";
    if result.status.Passed? {
      resultStatus := PassedLine;
    } else {
      if Truthy(result.fullMcpResponse) {
        errorText := "## MCP Response (as seen by agent)\n\n" + MdJson(result.fullMcpResponse, pretty) + "\n\n";
      } else {
        errorText := "## Error\n\n" + MdText(ToStr(result.error)) + "\n\n";
        if Truthy(result.errorDetails) {
          errorText := errorText + "## Error Details\n\n" + MdJson(result.errorDetails, pretty) + "\n\n";
        }
      }
      if result.status.ExpectedFailure? {
        resultStatus := ExpectedFailureLine;
      } else {
        resultStatus := FailedLine;
      }
    }
    assert resultStatus == StatusLine(result.status);
    assert errorText == ErrorSection(result.status, result.error, result.errorDetails, result.fullMcpResponse, pretty);
    var requestHeaders := "";
    if result.requestHeaders.Some? && |result.requestHeaders.value| > 0 {
      requestHeaders := "\nHeaders:\n" + Strings.Join(HeaderLines(result.requestHeaders.value), "\n") + "\n";
    }
    assert requestHeaders == HeadersBlock(result.requestHeaders);
    var responseText := FormatResponse(result, parse, pretty);
    md := Layout(resultStatus, result.timestamp, result.duration, result.toolName, requestHeaders,
                 result.description, MdJson(result.parameters, pretty), responseText, errorText);
  }

  /**
   * A second report of the same result object shows the clipboard mark as
   * the formatted text: the first report has already moved the original
   * text out of the caller's object.
   */
  lemma SecondReportShowsClipboard(response: Value, parse: string -> Result<Value, string>, pretty: Value -> string)
    requires response.Obj? && HasText(response)
    ensures var after := ResponseSection(response, parse, pretty).response;
      && after == WithClipboard(response)
      && ResponseSection(after, parse, pretty).text
         == "## Response\n\n" + MdJson(after, pretty) + "\n\n"
            + "## Formatted Text " + Clipboard + "\n" + MdText(Clipboard) + "\n\n"
  {
    ClipboardIsStable(response);
  }
}
