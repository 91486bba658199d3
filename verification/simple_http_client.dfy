/**
 * The simple HTTP test client: JSON-RPC over plain POSTs to one endpoint,
 * a request-id counter, the classification of a reply into result, MCP
 * error or invalid reply, and the server description kept by initialize.
 * The server is the function `fetch` of the POST made; JSON.stringify is a
 * parameter.
 */
module SimpleHttpClient {
  import opened Wrappers
  import opened Js
  import Strings
  import opened Network

  /** The notification initialize sends once the server has answered. */
  const InitializedNotification: string := "notifications/initialized"

  /** An Error the client throws; `data` is present when an MCP error attached it. */
  datatype ClientError = ClientError(message: string, data: Option<Value>)

  /** The headers of every POST: JSON content and accept types, overridden by the custom headers. */
  function RequestHeaders(custom: map<string, string>): (r: map<string, string>)
    ensures r.Keys == {"Content-Type", "Accept"} + custom.Keys
    ensures forall k :: k in custom ==> r[k] == custom[k]
    ensures "Content-Type" !in custom ==> r["Content-Type"] == "application/json"
    ensures "Accept" !in custom ==> r["Accept"] == "application/json"
  {
    map["Content-Type" := "application/json", "Accept" := "application/json"] + custom
  }

  /** sendRequest: a rejection passes through, a non-2xx status is an error, otherwise the parsed body. */
  function ReplyOf(o: FetchOutcome): Result<Value, ClientError> {
    match o
    case Rejected(reason) => Failure(ClientError(reason, None))
    case Responded(status, statusText, json) =>
      if !o.Ok() then
        Failure(ClientError("HTTP request failed: " + Strings.IntToString(status) + " " + statusText, None))
      else
        match json
        case Failure(e) => Failure(ClientError(e, None))
        case Success(v) => Success(v)
  }

  /** An error reply: a truthy `error` and an own `id` key, whatever its value. */
  predicate IsErrorReply(response: Value) {
    Truthy(Get(response, "error")) && response.Obj? && "id" in response.props
  }

  /** The Error thrown for an error reply: its code and message, with its data attached. */
  function McpError(error: Value): ClientError {
    ClientError("MCP Error " + ToStr(Get(error, "code")) + ": " + ToStr(Get(error, "message")), Some(Get(error, "data")))
  }

  /**
   * sendRpc's reading of a reply: a defined result with a numeric id is the
   * answer, even next to an error; then an error reply; anything else is
   * invalid. Reading `result` from a JSON null throws a TypeError.
   */
  function Classify(response: Value, stringify: Value -> string): (r: Result<Value, ClientError>)
    ensures r.Success? <==> !IsNullish(response) && Get(response, "result") != Undefined && Get(response, "id").Num?
    ensures r.Success? ==> r.value == Get(response, "result")
    ensures r.Failure? ==> (r.error.data.Some? <==> IsErrorReply(response))
    ensures r.Failure? && IsErrorReply(response) ==> r.error == McpError(Get(response, "error"))
    ensures r.Failure? && !IsNullish(response) && !IsErrorReply(response) ==>
      r.error == ClientError("Invalid MCP response: " + stringify(response), None)
    ensures IsNullish(response) ==> r == Failure(ClientError(TypeErrorReading(response, "result"), None))
  {
    match Read(response, "result")
    case Failure(e) => Failure(ClientError(e, None))
    case Success(result) =>
      if result != Undefined && Get(response, "id").Num? then Success(result)
      else if IsErrorReply(response) then Failure(McpError(Get(response, "error")))
      else Failure(ClientError("Invalid MCP response: " + stringify(response), None))
  }

  /** sendRpc's outcome for what fetch gave back. */
  function RpcOutcome(o: FetchOutcome, stringify: Value -> string): (r: Result<Value, ClientError>)
    ensures r.Success? ==> o.Responded? && o.Ok() && o.json.Success? && r.value == Get(o.json.value, "result")
    ensures o.Responded? && !o.Ok() ==>
      r == Failure(ClientError("HTTP request failed: " + Strings.IntToString(o.status) + " " + o.statusText, None))
  {
    match ReplyOf(o)
    case Failure(e) => Failure(e)
    case Success(v) => Classify(v, stringify)
  }

  class McpSimpleHttpClient {
    const baseUrl: string
    const endpointPath: string
    const customHeaders: map<string, string>
    const requestTimeoutMs: int
    /** The server as the client sees it: what fetch gives back for each POST. */
    const fetch: Post -> FetchOutcome
    const stringify: Value -> string

    var nextId: nat
    var protocolVersion: Value
    var capabilities: Value
    var serverInfo: Value
    /** Every POST made so far, in order. */
    var posts: seq<Post>

    /** The calls sent so far carry the ids 1, 2, …, nextId - 1, in that order. */
    ghost predicate Valid()
      reads this
    {
      nextId >= 1 && CallIds(posts) == Counting(nextId - 1)
    }

    /** Where every POST goes, and with which headers. */
    function Endpoint(): string {
      baseUrl + endpointPath
    }

    function Headers(): map<string, string> {
      RequestHeaders(customHeaders)
    }

    /** One trailing '/' is dropped from the base URL; the options default to '/mcp', no headers and 120000 ms. */
    constructor(baseUrl: string, endpointPath: Option<string>, headers: Option<map<string, string>>,
                requestTimeoutMs: Option<int>, fetch: Post -> FetchOutcome, stringify: Value -> string)
      ensures Valid() && nextId == 1 && posts == []
      ensures this.baseUrl == StripTrailingSlash(baseUrl)
      ensures this.endpointPath == endpointPath.GetOr("/mcp")
      ensures this.customHeaders == headers.GetOr(map[])
      ensures this.requestTimeoutMs == requestTimeoutMs.GetOr(120000)
      ensures protocolVersion == Undefined && capabilities == Undefined && serverInfo == Undefined
      ensures this.fetch == fetch && this.stringify == stringify
    {
      this.baseUrl := StripTrailingSlash(baseUrl);
      this.endpointPath := endpointPath.GetOr("/mcp");
      this.customHeaders := headers.GetOr(map[]);
      this.requestTimeoutMs := requestTimeoutMs.GetOr(120000);
      this.fetch := fetch;
      this.stringify := stringify;
      nextId := 1;
      protocolVersion := Undefined;
      capabilities := Undefined;
      serverInfo := Undefined;
      posts := [];
    }

    /** sendRequest: one POST of the body to the endpoint. */
    method SendRequest(body: Value) returns (r: Result<Value, ClientError>)
      modifies this`posts
      ensures posts == old(posts) + [Post(Endpoint(), Headers(), body)]
      ensures r == ReplyOf(fetch(Post(Endpoint(), Headers(), body)))
    {
      var p := Post(Endpoint(), Headers(), body);
      posts := posts + [p];
      r := ReplyOf(fetch(p));
    }

    /** notify: a POST without an id; the counter does not move and every failure is ignored. */
    method Notify(rpcMethod: string, params: Value)
      requires Valid()
      modifies this`posts
      ensures Valid()
      ensures posts == old(posts) + [Post(Endpoint(), Headers(), Notification(rpcMethod, params))]
    {
      CallIdsAppend(posts, Post(Endpoint(), Headers(), Notification(rpcMethod, params)));
      var _ := SendRequest(Notification(rpcMethod, params));
    }

    /** sendRpc: the call takes the next id, and the reply is classified. */
    method SendRpc(rpcMethod: string, params: Value) returns (r: Result<Value, ClientError>)
      requires Valid()
      modifies this`posts, this`nextId
      ensures Valid() && nextId == old(nextId) + 1
      ensures posts == old(posts) + [Post(Endpoint(), Headers(), RpcRequest(old(nextId), rpcMethod, params))]
      ensures r == RpcOutcome(fetch(Post(Endpoint(), Headers(), RpcRequest(old(nextId), rpcMethod, params))), stringify)
    {
      var id := nextId;
      nextId := nextId + 1;
      CallIdsAppend(posts, Post(Endpoint(), Headers(), RpcRequest(id, rpcMethod, params)));
      var response := SendRequest(RpcRequest(id, rpcMethod, params));
      assert Counting(id) == Counting(id - 1) + [Num(id)];
      match response
      case Failure(e) => r := Failure(e);
      case Success(v) => r := Classify(v, stringify);
    }

    /**
     * initialize: on success the server's protocolVersion, capabilities and
     * serverInfo are kept and notifications/initialized is sent; a failure
     * changes nothing else.
     */
    method Initialize(params: Value) returns (r: Result<Value, ClientError>)
      requires Valid()
      modifies this`posts, this`nextId, this`protocolVersion, this`capabilities, this`serverInfo
      ensures Valid() && nextId == old(nextId) + 1
      ensures var call := Post(Endpoint(), Headers(), RpcRequest(old(nextId), "initialize", params));
        && r == RpcOutcome(fetch(call), stringify)
        && (r.Failure? ==> posts == old(posts) + [call])
        && (r.Success? ==>
          posts == old(posts) + [call, Post(Endpoint(), Headers(), Notification(InitializedNotification, EmptyObj))])
      ensures r.Success? ==>
        && protocolVersion == Get(r.value, "protocolVersion")
        && capabilities == Get(r.value, "capabilities")
        && serverInfo == Get(r.value, "serverInfo")
      ensures r.Failure? ==>
        protocolVersion == old(protocolVersion) && capabilities == old(capabilities) && serverInfo == old(serverInfo)
    {
      ghost var call := Post(Endpoint(), Headers(), RpcRequest(nextId, "initialize", params));
      r := SendRpc("initialize", params);
      assert posts == old(posts) + [call];
      if r.Success? {
        protocolVersion := Get(r.value, "protocolVersion");
        capabilities := Get(r.value, "capabilities");
        serverInfo := Get(r.value, "serverInfo");
        Notify(InitializedNotification, EmptyObj);
      }
    }

    /** listTools: the result's `tools`, or the whole result when it has none. */
    method ListTools() returns (r: Result<Value, ClientError>)
      requires Valid()
      modifies this`posts, this`nextId
      ensures Valid() && nextId == old(nextId) + 1
      ensures var o := RpcOutcome(fetch(Post(Endpoint(), Headers(), RpcRequest(old(nextId), "tools/list", Undefined))), stringify);
        && (o.Failure? ==> r == o)
        && (o.Success? ==> r == Success(OrElse(Get(o.value, "tools"), o.value)))
    {
      var res := SendRpc("tools/list", Undefined);
      match res
      case Failure(e) => r := Failure(e);
      case Success(v) => r := Success(OrElse(Get(v, "tools"), v));
    }

    /** callTool: tools/call with the tool's name and arguments. */
    method CallTool(toolName: string, arguments: Value) returns (r: Result<Value, ClientError>)
      requires Valid()
      modifies this`posts, this`nextId
      ensures Valid() && nextId == old(nextId) + 1
      ensures r == RpcOutcome(fetch(Post(Endpoint(), Headers(), RpcRequest(old(nextId), "tools/call",
        Obj(map["name" := Str(toolName), "arguments" := arguments])))), stringify)
    {
      r := SendRpc("tools/call", Obj(map["name" := Str(toolName), "arguments" := arguments]));
    }
  }
}
