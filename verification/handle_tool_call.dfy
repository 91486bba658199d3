/**
 * The template's tool-call router: example_tool is served, every other name
 * is an unknown tool. The result formatter and the clock are parameters.
 */
module HandleToolCall {
  import opened Wrappers
  import opened Js
  import BaseMcpErrors
  import McpErrors
  import Tools

  /** formatToolResult (a function outside this model) and the current time as an ISO string. */
  datatype ToolEnv = ToolEnv(formatToolResult: Value -> Value, nowIso: string)

  function ToolError(toolName: string, message: string): McpErrors.Thrown {
    McpErrors.Mcp(McpErrors.ToolExecutionError(toolName, message, None, None))
  }

  /** handleExampleTool: the arguments' query must be truthy; the result is the formatted message. */
  function HandleExampleTool(env: ToolEnv, args: Value): (r: Result<Value, McpErrors.Thrown>)
    ensures !Truthy(Get(args, "query")) <==> r.Failure?
    ensures r.Failure? ==> r.error == ToolError("example_tool", "Query parameter is required")
    ensures r.Success? ==> r.value == env.formatToolResult(Obj(map[
      "message" := Str("Processed query: " + ToStr(Get(args, "query"))),
      "timestamp" := Str(env.nowIso)]))
  {
    var query := Get(args, "query");
    if !Truthy(query) then Failure(ToolError("example_tool", "Query parameter is required"))
    else Success(env.formatToolResult(Obj(map[
      "message" := Str("Processed query: " + ToStr(query)),
      "timestamp" := Str(env.nowIso)])))
  }

  /** The TypeError of destructuring `{ name, arguments }` from missing params. */
  function DestructureError(params: Value): (e: McpErrors.Thrown)
    ensures e.PlainError?
  {
    McpErrors.PlainError("Cannot destructure property 'name' of 'params' as it is "
      + (if params.Null? then "null" else "undefined") + ".")
  }

  /** The error for a tool name nothing handles. */
  function UnknownTool(name: Value): (e: McpErrors.Thrown)
    ensures e.Mcp? && e.e.statusCode == 400
    ensures e == ToolError(ToStr(name), "Unknown tool: " + ToStr(name))
  {
    var n := ToStr(name);
    ToolError(n, "Unknown tool: " + n)
  }

  /**
   * handleToolCall: routes on `params.name`; errors from the tool pass
   * through unchanged. Destructuring missing params throws a TypeError.
   */
  function HandleToolCall(env: ToolEnv, params: Value): (r: Result<Value, McpErrors.Thrown>)
    ensures IsNullish(params) ==> r == Failure(DestructureError(params))
    ensures Get(params, "name") == Str("example_tool") ==> r == HandleExampleTool(env, Get(params, "arguments"))
    ensures !IsNullish(params) && Get(params, "name") != Str("example_tool") ==>
      r == Failure(UnknownTool(Get(params, "name")))
  {
    if IsNullish(params) then Failure(DestructureError(params))
    else if Get(params, "name") == Str("example_tool") then HandleExampleTool(env, Get(params, "arguments"))
    else Failure(UnknownTool(Get(params, "name")))
  }

  /** The second advertised tool has no handler: calling it is an unknown-tool error. */
  lemma AdvertisedSearchIsUnhandled(env: ToolEnv, params: Value)
    requires params.Obj? && Get(params, "name") == Str(Tools.GetToolNames()[1])
    ensures var n := Tools.GetToolNames()[1];
      HandleToolCall(env, params) == Failure(ToolError(n, "Unknown tool: " + n))
    ensures HandleToolCall(env, params).error.e.statusCode == 400
  {
    assert Tools.GetToolNames()[1] == "example_search";
    assert Get(params, "name") != Str("example_tool");
  }

  /** A tool-call failure reaches a JSON-RPC client as -32000 with the tool's message. */
  lemma ToolErrorEnvelope(env: ToolEnv, params: Value, id: Value)
    requires HandleToolCall(env, params).Failure? && HandleToolCall(env, params).error.Mcp?
    ensures var e := HandleToolCall(env, params).error;
      var env' := McpErrors.JsonRpcErrorResponse(e, id);
      Get(Get(env', "error"), "code") == Num(-32000)
      && Get(Get(env', "error"), "message") == Str(e.e.message)
  {
  }
}
