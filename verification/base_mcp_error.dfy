/**
 * BaseMcpError, the root of the server's error classes: a code, a message,
 * optional details, an HTTP status code and a "printed" mark, plus the
 * record that JSON serialisation of such an error produces.
 */
module BaseMcpErrors {
  import opened Wrappers
  import opened Js

  /** The concrete class an error was constructed as; its name becomes the error's `name`. */
  datatype ErrorClass =
    | BaseMcpErrorClass
    | ValidationErrorClass
    | ToolExecutionErrorClass
    | SearchErrorClass
    | ServerErrorClass

  function ClassName(c: ErrorClass): string {
    match c
    case BaseMcpErrorClass => "BaseMcpError"
    case ValidationErrorClass => "ValidationError"
    case ToolExecutionErrorClass => "ToolExecutionError"
    case SearchErrorClass => "SearchError"
    case ServerErrorClass => "ServerError"
  }

  /** Codes are strings by declaration; the JSON-RPC mapping also accepts numeric ones. */
  datatype Code = StrCode(s: string) | NumCode(n: int)

  function CodeValue(c: Code): Value {
    match c
    case StrCode(s) => Str(s)
    case NumCode(n) => Num(n)
  }

  /**
   * An error instance. `details` and `printed` stand for properties that are
   * present or deleted; `stack` is whatever the runtime captured.
   */
  datatype BaseMcpError = BaseMcpError(
    name: string,
    code: Code,
    message: string,
    details: Option<Value>,
    statusCode: int,
    printed: bool,
    stack: Option<string>)

  /**
   * The constructor: `details` is kept only when it is not undefined, a
   * falsy status code (absent or 0) becomes 500, and `printed` is set only
   * for a truthy flag.
   */
  function New(cls: ErrorClass, code: Code, message: string, details: Value,
               statusCode: Option<int>, printed: Option<bool>, stack: Option<string>): (r: BaseMcpError)
    ensures r.name == ClassName(cls) && r.code == code && r.message == message
    ensures r.details.Some? <==> details != Undefined
    ensures r.details.Some? ==> r.details.value == details
    ensures statusCode.Some? && statusCode.value != 0 ==> r.statusCode == statusCode.value
    ensures statusCode.None? || statusCode.value == 0 ==> r.statusCode == 500
    ensures r.statusCode != 0
    ensures r.printed <==> printed == Some(true)
    ensures r.stack == stack
  {
    BaseMcpError(
      ClassName(cls),
      code,
      message,
      if details == Undefined then None else Some(details),
      if statusCode.None? || statusCode.value == 0 then 500 else statusCode.value,
      printed == Some(true),
      stack)
  }

  /** toJSON: code and message always, details and stack only when defined. */
  function ToJson(e: BaseMcpError): (r: Value)
    ensures r.Obj?
    ensures r.props.Keys ==
      {"code", "message"}
      + (if e.details.Some? then {"details"} else {})
      + (if e.stack.Some? then {"stack"} else {})
    ensures Get(r, "code") == CodeValue(e.code)
    ensures Get(r, "message") == Str(e.message)
    ensures e.details.Some? ==> Get(r, "details") == e.details.value
    ensures e.stack.Some? ==> Get(r, "stack") == Str(e.stack.value)
  {
    var base := map["code" := CodeValue(e.code), "message" := Str(e.message)];
    var withDetails := if e.details.Some? then base["details" := e.details.value] else base;
    Obj(if e.stack.Some? then withDetails["stack" := Str(e.stack.value)] else withDetails)
  }

  /** Serialising an error constructed without details never yields a details key. */
  lemma ToJsonWithoutDetails(cls: ErrorClass, code: Code, message: string,
                             statusCode: Option<int>, printed: Option<bool>, stack: Option<string>)
    ensures "details" !in ToJson(New(cls, code, message, Undefined, statusCode, printed, stack)).props
  {
  }
}
