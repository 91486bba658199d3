/**
 * The HTTP test client: one POST to `<baseUrl>/mcp` per call, a request-id
 * counter, and the reading of a reply, in which every error the client
 * throws carries the request headers it sent. The server is the function
 * `fetch` of the POST made; JSON.stringify is a parameter.
 */
module HttpClient {
  import opened Wrappers
  import opened Js
  import Strings
  import opened Network

  /** An Error the client throws, with the properties it may have been annotated with. */
  datatype ClientError = ClientError(
    message: string,
    data: Option<Value>,
    fullMcpResponse: Option<Value>,
    requestHeaders: Option<map<string, string>>)

  /** A successful call: the reply's result and the headers that were sent. */
  datatype Answer = Answer(result: Value, requestHeaders: map<string, string>)

  /** The headers of every POST: a JSON content type, overridden by the custom headers. */
  function RequestHeaders(custom: map<string, string>): (r: map<string, string>)
    ensures r.Keys == {"Content-Type"} + custom.Keys
    ensures forall k :: k in custom ==> r[k] == custom[k]
    ensures "Content-Type" !in custom ==> r["Content-Type"] == "application/json"
  {
    map["Content-Type" := "application/json"] + custom
  }

  /** `MCP Error: <error.message>`, or the error's JSON when it has no truthy message. */
  function McpErrorMessage(error: Value, stringify: Value -> string): string {
    "MCP Error: " + (if Truthy(Get(error, "message")) then ToStr(Get(error, "message")) else stringify(error))
  }

  /** The Error for a reply that carries an error: its message, the error's data and the whole reply. */
  function McpError(reply: Value, stringify: Value -> string): (e: ClientError)
    ensures e.data == Some(Get(Get(reply, "error"), "data")) && e.fullMcpResponse == Some(reply)
    ensures e.requestHeaders.None?
  {
    ClientError(McpErrorMessage(Get(reply, "error"), stringify), Some(Get(Get(reply, "error"), "data")), Some(reply), None)
  }

  /** The error as it leaves sendRequest's catch: the request headers are added when it has none. */
  function WithHeaders(e: ClientError, headers: map<string, string>): ClientError {
    if e.requestHeaders.None? then e.(requestHeaders := Some(headers)) else e
  }

  /** The reply body read: an error in it is thrown, otherwise its result is returned with the headers. */
  function ReadReply(data: Value, headers: map<string, string>, stringify: Value -> string): Result<Answer, ClientError> {
    match Read(data, "error")
    case Failure(e) => Failure(ClientError(e, None, None, None))
    case Success(error) =>
      if Truthy(error) then Failure(McpError(data, stringify))
      else Success(Answer(Get(data, "result"), headers))
  }

  /**
   * sendRequest's outcome for what fetch gave back: a rejection, a non-2xx
   * status, an unreadable body and an error reply are all thrown, each with
   * the request headers attached.
   */
  function SendOutcome(o: FetchOutcome, headers: map<string, string>, stringify: Value -> string): (r: Result<Answer, ClientError>)
    ensures r.Failure? ==> r.error.requestHeaders == Some(headers)
    ensures r.Success? <==>
      o.Responded? && o.Ok() && o.json.Success? && !IsNullish(o.json.value) && !Truthy(Get(o.json.value, "error"))
    ensures r.Success? ==> r.value == Answer(Get(o.json.value, "result"), headers)
    ensures o.Responded? && !o.Ok() ==>
      r.error.message == "HTTP " + Strings.IntToString(o.status) + ": " + o.statusText
    ensures o.Responded? && o.Ok() && o.json.Success? && Truthy(Get(o.json.value, "error")) ==>
      r == Failure(McpError(o.json.value, stringify).(requestHeaders := Some(headers)))
  {
    var raw: Result<Answer, ClientError> :=
      match o
      case Rejected(reason) => Failure(ClientError(reason, None, None, None))
      case Responded(status, statusText, json) =>
        if !o.Ok() then
          Failure(ClientError("HTTP " + Strings.IntToString(status) + ": " + statusText, None, None, Some(headers)))
        else
          match json
          case Failure(e) => Failure(ClientError(e, None, None, None))
          case Success(data) => ReadReply(data, headers, stringify);
    match raw
    case Success(a) => Success(a)
    case Failure(e) => Failure(WithHeaders(e, headers))
  }

  class McpHttpClient {
    const baseUrl: string
    const customHeaders: map<string, string>
    /** The server as the client sees it: what fetch gives back for each POST. */
    const fetch: Post -> FetchOutcome
    const stringify: Value -> string

    var requestId: nat
    /** Every POST made so far, in order. */
    var posts: seq<Post>

    /** The requests sent so far carry the ids 1, 2, …, requestId - 1, in that order. */
    ghost predicate Valid()
      reads this
    {
      requestId >= 1 && CallIds(posts) == Counting(requestId - 1)
    }

    function Headers(): map<string, string> {
      RequestHeaders(customHeaders)
    }

    /** The base URL is kept as given; the custom headers default to none. */
    constructor(baseUrl: string, customHeaders: Option<map<string, string>>,
                fetch: Post -> FetchOutcome, stringify: Value -> string)
      ensures Valid() && requestId == 1 && posts == []
      ensures this.baseUrl == baseUrl && this.customHeaders == customHeaders.GetOr(map[])
      ensures this.fetch == fetch && this.stringify == stringify
    {
      this.baseUrl := baseUrl;
      this.customHeaders := customHeaders.GetOr(map[]);
      this.fetch := fetch;
      this.stringify := stringify;
      requestId := 1;
      posts := [];
    }

    /** sendRequest: the call takes the next id and is POSTed to `<baseUrl>/mcp`. */
    method SendRequest(rpcMethod: string, params: Value) returns (r: Result<Answer, ClientError>)
      requires Valid()
      modifies this`posts, this`requestId
      ensures Valid() && requestId == old(requestId) + 1
      ensures posts == old(posts) + [Post(baseUrl + "/mcp", Headers(), RpcRequest(old(requestId), rpcMethod, params))]
      ensures r == SendOutcome(fetch(posts[|posts| - 1]), Headers(), stringify)
    {
      var id := requestId;
      requestId := requestId + 1;
      var p := Post(baseUrl + "/mcp", Headers(), RpcRequest(id, rpcMethod, params));
      CallIdsAppend(posts, p);
      posts := posts + [p];
      assert Counting(id) == Counting(id - 1) + [Num(id)];
      r := SendOutcome(fetch(p), Headers(), stringify);
    }

    /** listTools: the result of tools/list alone. */
    method ListTools() returns (r: Result<Value, ClientError>)
      requires Valid()
      modifies this`posts, this`requestId
      ensures Valid() && requestId == old(requestId) + 1
      ensures var o := SendOutcome(fetch(Post(baseUrl + "/mcp", Headers(), RpcRequest(old(requestId), "tools/list", EmptyObj))), Headers(), stringify);
        && (o.Failure? ==> r == Failure(o.error))
        && (o.Success? ==> r == Success(o.value.result))
    {
      var res := SendRequest("tools/list", EmptyObj);
      match res
      case Failure(e) => r := Failure(e);
      case Success(a) => r := Success(a.result);
    }

    /** callTool: tools/call with the tool's name and arguments. */
    method CallTool(toolName: string, arguments: Value) returns (r: Result<Answer, ClientError>)
      requires Valid()
      modifies this`posts, this`requestId
      ensures Valid() && requestId == old(requestId) + 1
      ensures r == SendOutcome(fetch(Post(baseUrl + "/mcp", Headers(), RpcRequest(old(requestId), "tools/call",
        Obj(map["name" := Str(toolName), "arguments" := arguments])))), Headers(), stringify)
    {
      r := SendRequest("tools/call", Obj(map["name" := Str(toolName), "arguments" := arguments]));
    }
  }
}
