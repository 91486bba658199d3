/** ValidationError: a BaseMcpError with a fixed code and HTTP status 400. */
module ValidationErrors {
  import opened Wrappers
  import opened Js
  import opened BaseMcpErrors
  import McpErrors

  function ValidationError(message: string, printed: Option<bool>, stack: Option<string>): (r: BaseMcpError)
    ensures r.name == "ValidationError" && r.code == StrCode("VALIDATION_ERROR") && r.message == message
    ensures r.statusCode == 400
    ensures r.details.None?
    ensures r.printed <==> printed == Some(true)
  {
    New(ValidationErrorClass, StrCode("VALIDATION_ERROR"), message, Undefined, Some(400), printed, stack)
  }

  /** Its string code maps to JSON-RPC code -32000, and it carries no data. */
  lemma ValidationErrorEnvelope(message: string, printed: Option<bool>, stack: Option<string>, id: Value)
    ensures
      var env := McpErrors.JsonRpcErrorResponse(McpErrors.Mcp(ValidationError(message, printed, stack)), id);
      && Get(Get(env, "error"), "code") == Num(-32000)
      && Get(Get(env, "error"), "message") == Str(message)
      && Get(Get(env, "error"), "data") == Undefined
  {
  }
}
