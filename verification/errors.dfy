/**
 * The concrete error classes, the JSON-RPC 2.0 error envelope and the
 * helpers that turn an arbitrary thrown value into an Error or a message.
 */
module McpErrors {
  import opened Wrappers
  import opened Js
  import opened BaseMcpErrors

  /**
   * A thrown value: an MCP error, any other Error (only its message
   * matters here), or a value that is not an Error at all.
   */
  datatype Thrown =
    | Mcp(e: BaseMcpError)
    | PlainError(message: string)
    | NonError(v: Value)
  {
    predicate IsError() {
      !NonError?
    }

    function Message(): string
      requires IsError()
    {
      match this
      case Mcp(e) => e.message
      case PlainError(m) => m
    }
  }

  function ToolExecutionError(toolName: string, message: string, printed: Option<bool>, stack: Option<string>): (r: BaseMcpError)
    ensures r.name == "ToolExecutionError" && r.code == StrCode("TOOL_EXECUTION_ERROR")
    ensures r.message == "Failed to execute tool '" + toolName + "': " + message
    ensures r.statusCode == 400 && r.details.None?
    ensures r.printed <==> printed == Some(true)
  {
    New(ToolExecutionErrorClass, StrCode("TOOL_EXECUTION_ERROR"),
        "Failed to execute tool '" + toolName + "': " + message, Undefined, Some(400), printed, stack)
  }

  function SearchError(entityType: string, message: string, stack: Option<string>): (r: BaseMcpError)
    ensures r.name == "SearchError" && r.code == StrCode("SEARCH_ERROR")
    ensures r.message == "Failed to search '" + entityType + "': " + message
    ensures r.statusCode == 400 && r.details.None? && r.printed
  {
    New(SearchErrorClass, StrCode("SEARCH_ERROR"),
        "Failed to search '" + entityType + "': " + message, Undefined, Some(400), Some(true), stack)
  }

  function ServerError(message: string, details: Value, printed: Option<bool>, stack: Option<string>): (r: BaseMcpError)
    ensures r.name == "ServerError" && r.code == StrCode("SERVER_ERROR") && r.message == message
    ensures r.statusCode == 500
    ensures r.details.Some? <==> details != Undefined
    ensures r.printed <==> printed == Some(true)
  {
    New(ServerErrorClass, StrCode("SERVER_ERROR"), message, details, Some(500), printed, stack)
  }

  /** The JSON-RPC error code given to an error. */
  function RpcCode(error: Thrown): int
    requires error.IsError()
  {
    match error
    case Mcp(e) => if e.code.NumCode? then e.code.n else -32000
    case PlainError(_) => -32603
  }

  /** `{jsonrpc: '2.0', id: requestId ?? 1, error: {code, message, data}}`. */
  function JsonRpcErrorResponse(error: Thrown, requestId: Value): (r: Value)
    requires error.IsError()
    ensures r.Obj? && r.props.Keys == {"jsonrpc", "id", "error"}
    ensures Get(r, "jsonrpc") == Str("2.0")
    ensures !IsNullish(requestId) ==> Get(r, "id") == requestId
    ensures IsNullish(requestId) ==> Get(r, "id") == Num(1)
    ensures Get(r, "error").Obj? && Get(r, "error").props.Keys == {"code", "message", "data"}
    ensures error.Mcp? && error.e.code.NumCode? ==> Get(Get(r, "error"), "code") == Num(error.e.code.n)
    ensures error.Mcp? && error.e.code.StrCode? ==> Get(Get(r, "error"), "code") == Num(-32000)
    ensures error.PlainError? ==> Get(Get(r, "error"), "code") == Num(-32603)
    ensures Get(Get(r, "error"), "message") == Str(error.Message())
    ensures error.Mcp? && error.e.details.Some? ==> Get(Get(r, "error"), "data") == error.e.details.value
    ensures !(error.Mcp? && error.e.details.Some?) ==> Get(Get(r, "error"), "data") == Undefined
  {
    var data := if error.Mcp? && error.e.details.Some? then error.e.details.value else Undefined;
    Obj(map[
      "jsonrpc" := Str("2.0"),
      "id" := OrElse(requestId, Num(1)),
      "error" := Obj(map["code" := Num(RpcCode(error)), "message" := Str(error.Message()), "data" := data])])
  }

  /** toError: Errors pass through, anything else is wrapped as `new Error(String(x))`. */
  function ToError(x: Thrown): (r: Thrown)
    ensures r.IsError()
    ensures x.IsError() ==> r == x
    ensures x.NonError? ==> r == PlainError(Js.ToStr(x.v))
  {
    if x.IsError() then x else PlainError(Js.ToStr(x.v))
  }

  /** toStr: an Error's message, 'Unknown error' for a falsy value, String(x) otherwise. */
  function ToStr(x: Thrown): (r: string)
    ensures x.IsError() ==> r == x.Message()
    ensures x.NonError? && !Truthy(x.v) ==> r == "Unknown error"
    ensures x.NonError? && Truthy(x.v) ==> r == Js.ToStr(x.v)
  {
    if x.IsError() then x.Message()
    else if Truthy(x.v) then Js.ToStr(x.v)
    else "Unknown error"
  }

  /**
   * addErrorMessage: an Error's message becomes "<msg>. <old message>" and
   * nothing else about it changes; a non-Error is left alone.
   */
  function AddErrorMessage(x: Thrown, msg: string): (r: Thrown)
    ensures x.NonError? ==> r == x
    ensures x.PlainError? ==> r.PlainError?
    ensures x.Mcp? ==> r.Mcp? && r.e == x.e.(message := r.e.message)
    ensures x.IsError() ==> r.IsError() && r.Message() == msg + ". " + x.Message()
  {
    match x
    case Mcp(e) => Mcp(e.(message := msg + ". " + e.message))
    case PlainError(m) => PlainError(msg + ". " + m)
    case NonError(_) => x
  }

  /** For a truthy non-Error, toStr and toError agree on the text. */
  lemma ToStrOfToError(x: Thrown)
    requires x.IsError() || Truthy(x.v)
    ensures ToStr(ToError(x)) == ToStr(x)
  {
  }
}
