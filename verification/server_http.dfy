/**
 * The HTTP transport's request admission and JSON-RPC handling: the rate
 * limit step, the POST /mcp pipeline (authorisation, rate limit, method
 * switch, result or error envelope), the SSE tool-call guard, the health
 * verdict and the 404 listing of endpoints.
 */
module ServerHttp {
  import opened Wrappers
  import opened Js
  import BaseMcpErrors
  import McpErrors
  import TokenAuth

  /** What the limiter answers to one consume: allowed, refused with its message, or a failure of its own. */
  datatype Consumed = Allowed | RateLimited(message: string) | LimiterFailed(error: McpErrors.Thrown)

  /**
   * The rate limiter: the keys consumed so far, and its decision for a key
   * given that history (the window arithmetic belongs to the library).
   */
  class RateLimiter {
    const decide: (seq<string>, string) -> Consumed
    var consumed: seq<string>

    constructor(decide: (seq<string>, string) -> Consumed)
      ensures this.decide == decide && consumed == []
    {
      this.decide := decide;
      consumed := [];
    }

    method Consume(key: string) returns (d: Consumed)
      modifies this
      ensures consumed == old(consumed) + [key]
      ensures d == decide(old(consumed), key)
    {
      d := decide(consumed, key);
      consumed := consumed + [key];
    }
  }

  datatype Body = Json(value: Value) | Text(text: string) | NoBody

  /** Node's message for ERR_HTTP_HEADERS_SENT. */
  const HeadersSentMessage := "Cannot set headers after they are sent to the client"

  /** What a write throws once a reply has gone out. */
  const HeadersSent := McpErrors.PlainError(HeadersSentMessage)

  /**
   * An HTTP response. The client receives the first status and body
   * written; a later write throws ERR_HTTP_HEADERS_SENT and changes nothing.
   */
  class Response {
    var reply: Option<(int, Body)>

    constructor()
      ensures reply.None?
    {
      reply := None;
    }

    method Send(status: int, body: Body) returns (sent: Result<(), McpErrors.Thrown>)
      modifies this
      ensures old(reply).None? ==> reply == Some((status, body)) && sent == Success(())
      ensures old(reply).Some? ==> reply == old(reply) && sent == Failure(HeadersSent)
    {
      if reply.None? {
        reply := Some((status, body));
        sent := Success(());
      } else {
        sent := Failure(HeadersSent);
      }
    }
  }

  /** The JSON-RPC denial handleRateLimit writes: status 200, error code -32000. */
  function RateLimitEnvelope(id: Value, message: string): (r: Value)
    ensures r.Obj? && r.props.Keys == {"jsonrpc", "id", "error"}
    ensures Get(r, "id") == OrElse(id, Num(1))
    ensures Get(r, "error") == Obj(map["code" := Num(-32000), "message" := Str(message)])
  {
    Obj(map[
      "jsonrpc" := Str("2.0"),
      "id" := OrElse(id, Num(1)),
      "error" := Obj(map["code" := Num(-32000), "message" := Str(message)])])
  }

  /**
   * handleRateLimit: consumes one point under `clientId`. A refusal is
   * written to `res` when there is one (and the call returns normally), or
   * thrown as an Error otherwise; a failure of the limiter itself is rethrown.
   * The write sits in the catch block, so when a reply has already gone out
   * the write's own ERR_HTTP_HEADERS_SENT leaves handleRateLimit instead.
   */
  method HandleRateLimit(limiter: RateLimiter, clientId: string, res: Response?, id: Value)
    returns (outcome: Result<(), McpErrors.Thrown>)
    modifies limiter, res
    ensures limiter.consumed == old(limiter.consumed) + [clientId]
    ensures var d := limiter.decide(old(limiter.consumed), clientId);
      && (d.Allowed? ==> outcome.Success?)
      && (d.RateLimited? && res != null ==>
            outcome == if old(res.reply).None? then Success(()) else Failure(HeadersSent))
      && (d.RateLimited? && res == null ==> outcome == Failure(McpErrors.PlainError(d.message)))
      && (d.LimiterFailed? ==> outcome == Failure(d.error))
    ensures res != null ==>
      var d := limiter.decide(old(limiter.consumed), clientId);
      res.reply == if d.RateLimited? && old(res.reply).None?
        then Some((200, Json(RateLimitEnvelope(id, d.message)))) else old(res.reply)
  {
    var d := limiter.Consume(clientId);
    match d
    case Allowed =>
      outcome := Success(());
    case RateLimited(message) =>
      if res != null {
        outcome := res.Send(200, Json(RateLimitEnvelope(id, message)));
      } else {
        outcome := Failure(McpErrors.PlainError(message));
      }
    case LimiterFailed(error) =>
      outcome := Failure(error);
  }

  /** The server's fixed data and the handlers it calls (tools, prompts and resources are outside this module). */
  datatype McpConfig = McpConfig(
    auth: TokenAuth.AuthSettings,
    name: string,
    version: string,
    tools: Value,
    toolHandler: Value -> Result<Value, McpErrors.Thrown>,
    promptsList: Value,
    getPrompt: Value -> Result<Value, McpErrors.Thrown>,
    resourcesList: Value)

  /** A request as the handler sees it; `ip` is empty when unknown. `now` is the clock. */
  datatype Request = Request(ip: string, headers: TokenAuth.Headers, body: Value, now: int)

  /** `req.ip || 'unknown'`. */
  function ClientId(ip: string): (r: string)
    ensures r != "" && (ip != "" ==> r == ip)
  {
    if ip == "" then "unknown" else ip
  }

  function InitializeResult(name: string, version: string): Value {
    Obj(map[
      "protocolVersion" := Str("2024-11-05"),
      "capabilities" := Obj(map["tools" := EmptyObj, "prompts" := EmptyObj, "resources" := EmptyObj]),
      "serverInfo" := Obj(map["name" := Str(name), "version" := Str(version)])])
  }

  /** How the method switch ends: a result, the bare 204 reply, or a thrown error. */
  datatype Outcome = Answer(result: Value) | NoContent | Threw(error: McpErrors.Thrown)

  function FromResult(r: Result<Value, McpErrors.Thrown>): Outcome {
    match r
    case Success(v) => Answer(v)
    case Failure(e) => Threw(e)
  }

  /**
   * The method switch of POST /mcp, once the request is admitted. The
   * result of resources/read is the pending promise of getResource, which
   * is never awaited and serialises as an empty object.
   */
  function Dispatch(cfg: McpConfig, body: Value): (r: Outcome)
    ensures r.NoContent? <==> Get(body, "method") == Str("notifications/initialized")
    ensures Get(body, "method") == Str("initialize") ==> r == Answer(InitializeResult(cfg.name, cfg.version))
    ensures Get(body, "method") == Str("tools/list") ==> r == Answer(Obj(map["tools" := cfg.tools]))
    ensures Get(body, "method") == Str("tools/call") ==> r == FromResult(cfg.toolHandler(Get(body, "params")))
    ensures Get(body, "method") == Str("prompts/list") ==> r == Answer(cfg.promptsList)
    ensures Get(body, "method") == Str("prompts/get") ==> r == FromResult(cfg.getPrompt(body))
    ensures Get(body, "method") == Str("resources/list") ==> r == Answer(cfg.resourcesList)
    ensures Get(body, "method") == Str("resources/read") ==>
      && (r.Threw? <==> IsNullish(Get(body, "params")))
      && (r.Answer? ==> r.result == EmptyObj)
    ensures Get(body, "method") == Str("ping") ==> r == Answer(Obj(map["pong" := Bool(true)]))
  {
    var rpcMethod := Get(body, "method");
    var params := Get(body, "params");
    if rpcMethod == Str("initialize") then Answer(InitializeResult(cfg.name, cfg.version))
    else if rpcMethod == Str("tools/list") then Answer(Obj(map["tools" := cfg.tools]))
    else if rpcMethod == Str("tools/call") then FromResult(cfg.toolHandler(params))
    else if rpcMethod == Str("prompts/list") then Answer(cfg.promptsList)
    else if rpcMethod == Str("prompts/get") then FromResult(cfg.getPrompt(body))
    else if rpcMethod == Str("resources/list") then Answer(cfg.resourcesList)
    else if rpcMethod == Str("resources/read") then
      (match Read(params, "uri") case Failure(m) => Threw(McpErrors.PlainError(m)) case Success(_) => Answer(EmptyObj))
    else if rpcMethod == Str("notifications/initialized") then NoContent
    else if rpcMethod == Str("ping") then Answer(Obj(map["pong" := Bool(true)]))
    else Threw(McpErrors.PlainError("Unknown method: " + ToStr(rpcMethod)))
  }

  /** The `error` member of a failed POST /mcp: code -1, with the MCP code and details as data. */
  function ErrorObject(error: McpErrors.Thrown): (r: Value)
    ensures r.Obj? && Get(r, "code") == Num(-1)
    ensures error.Mcp? ==>
      && r.props.Keys == {"code", "message", "data"}
      && Get(r, "message") == Str(error.e.message)
      && Get(r, "data") == Obj(map[
           "code" := BaseMcpErrors.CodeValue(error.e.code),
           "details" := error.e.details.GetOr(Undefined)])
    ensures !error.Mcp? ==> r.props.Keys == {"code", "message"} && Get(r, "message") == Str(McpErrors.ToStr(error))
  {
    match error
    case Mcp(e) =>
      var j := BaseMcpErrors.ToJson(e);
      Obj(map["code" := Num(-1), "message" := Get(j, "message"),
              "data" := Obj(map["code" := Get(j, "code"), "details" := Get(j, "details")])])
    case _ =>
      Obj(map["code" := Num(-1), "message" := Str(McpErrors.ToStr(error))])
  }

  function ErrorEnvelope(body: Value, error: McpErrors.Thrown): (r: Value)
    ensures r.Obj? && r.props.Keys == {"jsonrpc", "id", "error"}
    ensures Get(r, "id") == OrElse(Get(body, "id"), Num(1)) && Get(r, "error") == ErrorObject(error)
  {
    Obj(map["jsonrpc" := Str("2.0"), "id" := OrElse(Get(body, "id"), Num(1)), "error" := ErrorObject(error)])
  }

  /** The reply for an outcome: the id is echoed unchanged on success and defaults to 1 on error. */
  function HttpReply(body: Value, o: Outcome): (r: (int, Body))
    ensures o.NoContent? ==> r == (204, NoBody)
    ensures o.Answer? ==> r == (200, Json(Obj(map["jsonrpc" := Str("2.0"), "id" := Get(body, "id"), "result" := o.result])))
    ensures o.Threw? ==> r == (200, Json(ErrorEnvelope(body, o.error)))
  {
    match o
    case NoContent => (204, NoBody)
    case Answer(result) => (200, Json(Obj(map["jsonrpc" := Str("2.0"), "id" := Get(body, "id"), "result" := result])))
    case Threw(error) => (200, Json(ErrorEnvelope(body, error)))
  }

  /**
   * The catch block of POST /mcp first reads, then sets, `error.printed`.
   * The read throws on a nullish value and, module code being strict, the
   * write throws on any other primitive: such a value gets no reply.
   */
  predicate CatchThrows(error: McpErrors.Thrown) {
    error.NonError? && !IsObjectLike(error.v)
  }

  function TypeName(v: Value): string {
    match v
    case Bool(_) => "boolean"
    case Num(_) => "number"
    case Str(_) => "string"
    case _ => "object"
  }

  /** The TypeError the catch block throws on `error.printed` for a value that is not an object. */
  function PrintedTypeError(v: Value): (r: McpErrors.Thrown)
    requires !IsObjectLike(v)
    ensures r.PlainError? && r.message != ""
  {
    if IsNullish(v) then McpErrors.PlainError(TypeErrorReading(v, "printed"))
    else McpErrors.PlainError("Cannot create property 'printed' on " + TypeName(v) + " '" + ToStr(v) + "'")
  }

  /** What a response with nothing written yet holds once a request ends with `o`: nothing when the catch block throws. */
  function Written(body: Value, o: Outcome): (r: Option<(int, Body)>)
    ensures r.None? <==> o.Threw? && CatchThrows(o.error)
    ensures r.Some? ==> r.value == HttpReply(body, o)
  {
    if o.Threw? && CatchThrows(o.error) then None else Some(HttpReply(body, o))
  }

  /**
   * The catch block of POST /mcp: the error envelope is written, unless
   * touching `printed` throws first; a write after a reply throws too.
   * `escaped` is what leaves the handler as a rejected promise.
   */
  method Catch(body: Value, error: McpErrors.Thrown, res: Response) returns (escaped: Option<McpErrors.Thrown>)
    modifies res
    ensures CatchThrows(error) ==> res.reply == old(res.reply) && escaped == Some(PrintedTypeError(error.v))
    ensures !CatchThrows(error) && old(res.reply).None? ==>
      res.reply == Some(HttpReply(body, Threw(error))) && escaped.None?
    ensures !CatchThrows(error) && old(res.reply).Some? ==> res.reply == old(res.reply) && escaped == Some(HeadersSent)
  {
    if CatchThrows(error) {
      escaped := Some(PrintedTypeError(error.v));
      return;
    }
    var sent := res.Send(200, Json(ErrorEnvelope(body, error)));
    escaped := if sent.Failure? then Some(sent.error) else None;
  }

  /**
   * The end of POST /mcp once the method switch has an outcome: the reply is
   * written; a thrown error, or a failed write, goes through the catch block.
   */
  method Finish(body: Value, o: Outcome, res: Response) returns (escaped: Option<McpErrors.Thrown>)
    modifies res
    ensures old(res.reply).None? ==> res.reply == Written(body, o) && (escaped.None? <==> res.reply.Some?)
    ensures old(res.reply).Some? ==> res.reply == old(res.reply) && escaped.Some?
  {
    if o.Threw? {
      escaped := Catch(body, o.error, res);
      return;
    }
    var reply := HttpReply(body, o);
    var sent := res.Send(reply.0, reply.1);
    if sent.Failure? {
      escaped := Catch(body, sent.error, res);
    } else {
      escaped := None;
    }
  }

  /** The server state POST /mcp touches: its limiter and the tool calls it has made. */
  class McpHttpServer {
    const cfg: McpConfig
    const limiter: RateLimiter
    var toolCalls: seq<Value>

    constructor(cfg: McpConfig, limiter: RateLimiter)
      ensures this.cfg == cfg && this.limiter == limiter && toolCalls == []
    {
      this.cfg := cfg;
      this.limiter := limiter;
      toolCalls := [];
    }

    /** Runs the method switch, recording a tool call when the method makes one. */
    method Run(body: Value) returns (o: Outcome)
      modifies this
      ensures o == Dispatch(cfg, body)
      ensures toolCalls == old(toolCalls) + (if Get(body, "method") == Str("tools/call") then [Get(body, "params")] else [])
    {
      o := Dispatch(cfg, body);
      if Get(body, "method") == Str("tools/call") {
        toolCalls := toolCalls + [Get(body, "params")];
      }
    }

    /**
     * POST /mcp with a rate limit that stops the request: authorisation,
     * then one point under the client's key, then for tools/call one more
     * under `tool-<key>`, then the method switch; a refusal ends the request.
     */
    method HandleMcpPost(req: Request, res: Response) returns (escaped: Option<McpErrors.Thrown>)
      requires res.reply.None?
      modifies this, limiter, res
      ensures var mw := TokenAuth.AuthTokenMW(cfg.auth, req.headers, req.now);
        mw.Respond? ==>
          && limiter.consumed == old(limiter.consumed) && toolCalls == old(toolCalls)
          && res.reply == Some((mw.status, Text(mw.body))) && escaped.None?
      ensures TokenAuth.AuthTokenMW(cfg.auth, req.headers, req.now).Next? ==>
        var key := ClientId(req.ip);
        var d1 := limiter.decide(old(limiter.consumed), key);
        var isCall := Get(req.body, "method") == Str("tools/call");
        var d2 := limiter.decide(old(limiter.consumed) + [key], "tool-" + key);
        && limiter.consumed == old(limiter.consumed) + [key] + (if d1.Allowed? && isCall then ["tool-" + key] else [])
        && toolCalls == old(toolCalls) + (if d1.Allowed? && isCall && d2.Allowed? then [Get(req.body, "params")] else [])
        && (escaped.None? <==> res.reply.Some?)
        && (d1.RateLimited? ==> res.reply == Some((200, Json(RateLimitEnvelope(Get(req.body, "id"), d1.message)))))
        && (d1.LimiterFailed? ==> res.reply == Written(req.body, Threw(d1.error)))
        && (d1.Allowed? && isCall && d2.RateLimited? ==>
              res.reply == Some((200, Json(RateLimitEnvelope(Get(req.body, "id"), d2.message)))))
        && (d1.Allowed? && isCall && d2.LimiterFailed? ==> res.reply == Written(req.body, Threw(d2.error)))
        && (d1.Allowed? && (!isCall || d2.Allowed?) ==> res.reply == Written(req.body, Dispatch(cfg, req.body)))
    {
      var mw := TokenAuth.AuthTokenMW(cfg.auth, req.headers, req.now);
      if mw.Respond? {
        var _ := res.Send(mw.status, Text(mw.body));
        escaped := None;
        return;
      }
      var key := ClientId(req.ip);
      var d1 := limiter.decide(limiter.consumed, key);
      var admitted := HandleRateLimit(limiter, key, res, Get(req.body, "id"));
      if admitted.Failure? {
        escaped := Catch(req.body, admitted.error, res);
        return;
      }
      if d1.RateLimited? {
        escaped := None;
        return;
      }
      if Get(req.body, "method") == Str("tools/call") {
        var d2 := limiter.decide(limiter.consumed, "tool-" + key);
        var toolAdmitted := HandleRateLimit(limiter, "tool-" + key, res, Get(req.body, "id"));
        if toolAdmitted.Failure? {
          escaped := Catch(req.body, toolAdmitted.error, res);
          return;
        }
        if d2.RateLimited? {
          escaped := None;
          return;
        }
      }
      var o := Run(req.body);
      escaped := Finish(req.body, o, res);
    }

    /**
     * POST /mcp as written: after handleRateLimit has written a refusal it
     * returns normally, so the request carries on. The client keeps the
     * refusal, and the later write throws out of the handler. A tools/call
     * consumes its second point; its tool runs unless that second refusal
     * meets a reply already written, whose write then throws first.
     */
    method HandleMcpPostAsWritten(req: Request, res: Response) returns (escaped: Option<McpErrors.Thrown>)
      requires res.reply.None?
      modifies this, limiter, res
      ensures var mw := TokenAuth.AuthTokenMW(cfg.auth, req.headers, req.now);
        mw.Respond? ==>
          && limiter.consumed == old(limiter.consumed) && toolCalls == old(toolCalls)
          && res.reply == Some((mw.status, Text(mw.body))) && escaped.None?
      ensures TokenAuth.AuthTokenMW(cfg.auth, req.headers, req.now).Next? ==>
        var key := ClientId(req.ip);
        var d1 := limiter.decide(old(limiter.consumed), key);
        var isCall := Get(req.body, "method") == Str("tools/call");
        var d2 := limiter.decide(old(limiter.consumed) + [key], "tool-" + key);
        && limiter.consumed == old(limiter.consumed) + [key] + (if !d1.LimiterFailed? && isCall then ["tool-" + key] else [])
        && toolCalls == old(toolCalls) +
             (if isCall && !d1.LimiterFailed? && (d2.Allowed? || (d2.RateLimited? && d1.Allowed?))
              then [Get(req.body, "params")] else [])
        && (d1.RateLimited? ==>
              res.reply == Some((200, Json(RateLimitEnvelope(Get(req.body, "id"), d1.message)))) && escaped.Some?)
        && (d1.LimiterFailed? ==> res.reply == Written(req.body, Threw(d1.error)))
        && (d1.Allowed? && isCall && d2.RateLimited? ==>
              res.reply == Some((200, Json(RateLimitEnvelope(Get(req.body, "id"), d2.message)))) && escaped.Some?)
        && (d1.Allowed? && isCall && d2.LimiterFailed? ==> res.reply == Written(req.body, Threw(d2.error)))
        && (d1.Allowed? && (!isCall || d2.Allowed?) ==> res.reply == Written(req.body, Dispatch(cfg, req.body)))
    {
      var mw := TokenAuth.AuthTokenMW(cfg.auth, req.headers, req.now);
      if mw.Respond? {
        var _ := res.Send(mw.status, Text(mw.body));
        escaped := None;
        return;
      }
      escaped := AdmitAndRunAsWritten(req.body, ClientId(req.ip), res);
    }

    /** What POST /mcp as written does once the token is accepted: the rate-limit steps, then the method switch. */
    method AdmitAndRunAsWritten(body: Value, key: string, res: Response) returns (escaped: Option<McpErrors.Thrown>)
      requires res.reply.None?
      modifies this, limiter, res
      ensures var d1 := limiter.decide(old(limiter.consumed), key);
        var isCall := Get(body, "method") == Str("tools/call");
        var d2 := limiter.decide(old(limiter.consumed) + [key], "tool-" + key);
        && limiter.consumed == old(limiter.consumed) + [key] + (if !d1.LimiterFailed? && isCall then ["tool-" + key] else [])
        && toolCalls == old(toolCalls) +
             (if isCall && !d1.LimiterFailed? && (d2.Allowed? || (d2.RateLimited? && d1.Allowed?))
              then [Get(body, "params")] else [])
        && (d1.RateLimited? ==> res.reply == Some((200, Json(RateLimitEnvelope(Get(body, "id"), d1.message)))) && escaped.Some?)
        && (d1.LimiterFailed? ==> res.reply == Written(body, Threw(d1.error)))
        && (d1.Allowed? && isCall && d2.RateLimited? ==>
              res.reply == Some((200, Json(RateLimitEnvelope(Get(body, "id"), d2.message)))) && escaped.Some?)
        && (d1.Allowed? && isCall && d2.LimiterFailed? ==> res.reply == Written(body, Threw(d2.error)))
        && (d1.Allowed? && (!isCall || d2.Allowed?) ==> res.reply == Written(body, Dispatch(cfg, body)))
    {
      ghost var d1 := limiter.decide(limiter.consumed, key);
      var admitted := HandleRateLimit(limiter, key, res, Get(body, "id"));
      if admitted.Failure? {
        escaped := Catch(body, admitted.error, res);
        return;
      }
      if Get(body, "method") == Str("tools/call") {
        escaped := ToolCallAsWritten(body, key, res);
        return;
      }
      var o := Run(body);
      escaped := Finish(body, o, res);
    }

    /**
     * The tools/call step of POST /mcp as written: the second point, then the
     * tool. The tool does not run when the limiter itself fails, nor when the
     * point is refused after a reply has gone out (writing the denial throws).
     */
    method ToolCallAsWritten(body: Value, key: string, res: Response) returns (escaped: Option<McpErrors.Thrown>)
      requires Get(body, "method") == Str("tools/call")
      modifies this, limiter, res
      ensures limiter.consumed == old(limiter.consumed) + ["tool-" + key]
      ensures var d2 := limiter.decide(old(limiter.consumed), "tool-" + key);
        && toolCalls == old(toolCalls) +
             (if d2.Allowed? || (d2.RateLimited? && old(res.reply).None?) then [Get(body, "params")] else [])
        && (old(res.reply).Some? ==> res.reply == old(res.reply) && escaped.Some?)
        && (old(res.reply).None? && d2.RateLimited? ==>
              res.reply == Some((200, Json(RateLimitEnvelope(Get(body, "id"), d2.message)))) && escaped.Some?)
        && (old(res.reply).None? && d2.LimiterFailed? ==> res.reply == Written(body, Threw(d2.error)))
        && (old(res.reply).None? && d2.Allowed? ==> res.reply == Written(body, Dispatch(cfg, body)))
    {
      var toolAdmitted := HandleRateLimit(limiter, "tool-" + key, res, Get(body, "id"));
      if toolAdmitted.Failure? {
        escaped := Catch(body, toolAdmitted.error, res);
        return;
      }
      var o := Run(body);
      escaped := Finish(body, o, res);
    }

    /**
     * A tool call over SSE: one point under `sse-tool-<key>` with no response
     * to write to, so a refusal is thrown; then the tool's content, where
     * reading `content` from a nullish result throws a TypeError.
     */
    method SseToolCall(ip: string, params: Value) returns (r: Result<Value, McpErrors.Thrown>)
      modifies this, limiter
      ensures limiter.consumed == old(limiter.consumed) + ["sse-tool-" + ClientId(ip)]
      ensures var d := limiter.decide(old(limiter.consumed), "sse-tool-" + ClientId(ip));
        && (d.RateLimited? ==> r == Failure(McpErrors.PlainError(d.message)) && toolCalls == old(toolCalls))
        && (d.LimiterFailed? ==> r == Failure(d.error) && toolCalls == old(toolCalls))
        && (d.Allowed? ==> toolCalls == old(toolCalls) + [params])
        && (d.Allowed? && cfg.toolHandler(params).Success? && !IsNullish(cfg.toolHandler(params).value) ==>
              r == Success(Obj(map["content" := Get(cfg.toolHandler(params).value, "content")])))
        && (d.Allowed? && cfg.toolHandler(params).Success? && IsNullish(cfg.toolHandler(params).value) ==>
              r == Failure(McpErrors.PlainError(TypeErrorReading(cfg.toolHandler(params).value, "content"))))
        && (d.Allowed? && cfg.toolHandler(params).Failure? ==> r == cfg.toolHandler(params))
    {
      var admitted := HandleRateLimit(limiter, "sse-tool-" + ClientId(ip), null, Num(1));
      if admitted.Failure? {
        r := Failure(admitted.error);
        return;
      }
      toolCalls := toolCalls + [params];
      match cfg.toolHandler(params)
      case Success(v) =>
        match Read(v, "content") {
          case Failure(m) => r := Failure(McpErrors.PlainError(m));
          case Success(c) => r := Success(Obj(map["content" := c]));
        }
      case Failure(e) => r := Failure(e);
    }
  }

  /** An unknown method is answered with an error envelope, code -1, keeping the request id (1 when absent). */
  lemma UnknownMethodReply(cfg: McpConfig, body: Value)
    requires Get(body, "method") !in {Str("initialize"), Str("tools/list"), Str("tools/call"), Str("prompts/list"),
      Str("prompts/get"), Str("resources/list"), Str("resources/read"), Str("notifications/initialized"), Str("ping")}
    ensures var reply := HttpReply(body, Dispatch(cfg, body));
      && reply.0 == 200 && reply.1.Json?
      && Get(reply.1.value, "id") == OrElse(Get(body, "id"), Num(1))
      && Get(Get(reply.1.value, "error"), "code") == Num(-1)
      && Get(Get(reply.1.value, "error"), "message") == Str("Unknown method: " + ToStr(Get(body, "method")))
  {
    assert Dispatch(cfg, body) == Threw(McpErrors.PlainError("Unknown method: " + ToStr(Get(body, "method"))));
  }

  /** initialize answers with protocol version 2024-11-05, the three capabilities and the server's name and version, echoing the id. */
  lemma InitializeReply(cfg: McpConfig, body: Value)
    requires Get(body, "method") == Str("initialize")
    ensures var reply := HttpReply(body, Dispatch(cfg, body));
      && reply.0 == 200 && reply.1.Json?
      && Get(reply.1.value, "id") == Get(body, "id")
      && Get(Get(reply.1.value, "result"), "protocolVersion") == Str("2024-11-05")
      && Get(Get(reply.1.value, "result"), "capabilities")
           == Obj(map["tools" := EmptyObj, "prompts" := EmptyObj, "resources" := EmptyObj])
      && Get(Get(reply.1.value, "result"), "serverInfo") == Obj(map["name" := Str(cfg.name), "version" := Str(cfg.version)])
  {
    assert Dispatch(cfg, body) == Answer(InitializeResult(cfg.name, cfg.version));
  }

  /** ping answers `{pong: true}`. */
  lemma PingReply(cfg: McpConfig, body: Value)
    requires Get(body, "method") == Str("ping")
    ensures HttpReply(body, Dispatch(cfg, body)).1.value
      == Obj(map["jsonrpc" := Str("2.0"), "id" := Get(body, "id"), "result" := Obj(map["pong" := Bool(true)])])
  {
    assert Dispatch(cfg, body) == Answer(Obj(map["pong" := Bool(true)]));
  }

  /** A failing tool's MCP error reaches the client with code -1, its message, and its code and details as data. */
  lemma ToolErrorReply(cfg: McpConfig, body: Value)
    requires Get(body, "method") == Str("tools/call")
    requires cfg.toolHandler(Get(body, "params")).Failure? && cfg.toolHandler(Get(body, "params")).error.Mcp?
    ensures var e := cfg.toolHandler(Get(body, "params")).error.e;
      var reply := HttpReply(body, Dispatch(cfg, body));
      && reply == (200, Json(ErrorEnvelope(body, McpErrors.Mcp(e))))
      && Get(Get(reply.1.value, "error"), "message") == Str(e.message)
      && Get(Get(Get(reply.1.value, "error"), "data"), "code") == BaseMcpErrors.CodeValue(e.code)
  {
  }

  /** The /health document: unhealthy exactly when the main database is used and reports an error. */
  function Health(isMainDBUsed: bool, dbConnectionStatus: string, uptime: int, timestamp: string): (r: Value)
    ensures Get(r, "status") == Str(if isMainDBUsed && dbConnectionStatus == "error" then "unhealthy" else "healthy")
    ensures Get(r, "details").Obj?
    ensures ("dbConnectionStatus" in Get(r, "details").props) <==> isMainDBUsed
    ensures isMainDBUsed ==> Get(Get(r, "details"), "dbConnectionStatus") == Str(dbConnectionStatus)
  {
    var details := map["uptime" := Num(uptime), "timestamp" := Str(timestamp)];
    if isMainDBUsed then
      Obj(map["status" := Str(if dbConnectionStatus == "error" then "unhealthy" else "healthy"),
              "details" := Obj(details["dbConnectionStatus" := Str(dbConnectionStatus)])])
    else Obj(map["status" := Str("healthy"), "details" := Obj(details)])
  }

  /** The endpoints the 404 reply lists: the four built-in ones, docs with swagger, then the project's own. */
  function AvailableEndpoints(swagger: bool, endpointsOn404: map<string, Value>): (r: map<string, Value>)
    ensures r.Keys == {"about", "health", "sse", "mcp"} + (if swagger then {"docs"} else {}) + endpointsOn404.Keys
    ensures forall k :: k in endpointsOn404 ==> r[k] == endpointsOn404[k]
    ensures "mcp" !in endpointsOn404 ==> r["mcp"] == Str("POST /mcp")
    ensures swagger && "docs" !in endpointsOn404 ==> r["docs"] == Str("GET /docs")
  {
    var base := map["about" := Str("GET /"), "health" := Str("GET /health"), "sse" := Str("GET /sse"), "mcp" := Str("POST /mcp")];
    var withDocs := if swagger then base["docs" := Str("GET /docs")] else base;
    withDocs + endpointsOn404
  }

  function NotFound(httpMethod: string, path: string, swagger: bool, endpointsOn404: map<string, Value>): (r: (int, Body))
    ensures r.0 == 404 && r.1.Json? && r.1.value.Obj?
    ensures Get(r.1.value, "error") == Str("Not Found")
    ensures Get(r.1.value, "message") == Str("Cannot " + httpMethod + " " + path)
    ensures Get(r.1.value, "availableEndpoints") == Obj(AvailableEndpoints(swagger, endpointsOn404))
  {
    (404, Json(Obj(map[
      "error" := Str("Not Found"),
      "message" := Str("Cannot " + httpMethod + " " + path),
      "availableEndpoints" := Obj(AvailableEndpoints(swagger, endpointsOn404))])))
  }
}
