/**
 * The SSE test client: each call opens an event source on `<baseUrl>/sse`
 * with the request JSON and the custom headers as query parameters, then
 * waits for the event that settles it — the first message carrying its id,
 * a connection error, or the request timeout. Messages for other ids are
 * skipped. What the source delivers is given as a sequence of events;
 * JSON.parse and JSON.stringify are parameters.
 */
module SseClient {
  import opened Wrappers
  import opened Js
  import opened Network
  import HttpClient

  /** What the event source delivers: a message's data, its `onerror`, or the request's 30-second timeout firing. */
  datatype SseEvent = Message(data: string) | ConnectionError | TimedOut

  /** The URL an event source is opened on: the path and its query parameters. */
  datatype SseUrl = SseUrl(path: string, query: map<string, string>)

  /**
   * The query: `request` holds the request's JSON, then every custom header
   * is set as a parameter of its own, so a header named `request` would
   * replace it.
   */
  function RequestQuery(requestJson: string, customHeaders: map<string, string>): (r: map<string, string>)
    ensures r.Keys == {"request"} + customHeaders.Keys
    ensures forall k :: k in customHeaders ==> r[k] == customHeaders[k]
    ensures "request" !in customHeaders ==> r["request"] == requestJson
  {
    map["request" := requestJson] + customHeaders
  }

  /** One call in flight: its id and method, with what the client reads replies with. */
  datatype Call = Call(
    id: nat,
    rpcMethod: string,
    customHeaders: map<string, string>,
    parse: string -> Result<Value, string>,
    stringify: Value -> string)

  type Outcome = Result<HttpClient.Answer, HttpClient.ClientError>

  function Plain(message: string): HttpClient.ClientError {
    HttpClient.ClientError(message, None, None, None)
  }

  /**
   * What one event does to the call: nothing for a message with another id,
   * otherwise the call settles — an error reply or a failure rejects, a
   * reply with the call's id and no error resolves.
   */
  function Decide(c: Call, e: SseEvent): (r: Option<Outcome>)
    ensures e.ConnectionError? ==> r == Some(Failure(Plain("SSE connection error: [object Event]")))
    ensures e.TimedOut? ==> r == Some(Failure(Plain("Request timeout for method: " + c.rpcMethod)))
    ensures e.Message? && c.parse(e.data).Success? && !IsNullish(c.parse(e.data).value) ==>
      var d := c.parse(e.data).value;
      && (r.None? <==> Get(d, "id") != Num(c.id))
      && (r.Some? && Truthy(Get(d, "error")) ==> r.value == Failure(HttpClient.McpError(d, c.stringify)))
      && (r.Some? && !Truthy(Get(d, "error")) ==> r.value == Success(HttpClient.Answer(Get(d, "result"), c.customHeaders)))
    ensures e.Message? && (c.parse(e.data).Failure? || IsNullish(c.parse(e.data).value)) ==> r.Some? && r.value.Failure?
  {
    match e
    case ConnectionError => Some(Failure(Plain("SSE connection error: [object Event]")))
    case TimedOut => Some(Failure(Plain("Request timeout for method: " + c.rpcMethod)))
    case Message(data) =>
      match c.parse(data)
      case Failure(err) => Some(Failure(Plain(err)))
      case Success(d) =>
        match Read(d, "id")
        case Failure(err) => Some(Failure(Plain(err)))
        case Success(id) =>
          if id != Num(c.id) then None
          else if Truthy(Get(d, "error")) then Some(Failure(HttpClient.McpError(d, c.stringify)))
          else Some(Success(HttpClient.Answer(Get(d, "result"), c.customHeaders)))
  }

  /** The index of the first event from `from` on that settles the call. */
  function FirstDecided(c: Call, events: seq<SseEvent>, from: nat): (r: Option<nat>)
    requires from <= |events|
    ensures r.Some? ==> from <= r.value < |events| && Decide(c, events[r.value]).Some?
    ensures r.Some? ==> forall j :: from <= j < r.value ==> Decide(c, events[j]).None?
    ensures r.None? ==> forall j :: from <= j < |events| ==> Decide(c, events[j]).None?
    decreases |events| - from
  {
    if from == |events| then None
    else if Decide(c, events[from]).Some? then Some(from)
    else FirstDecided(c, events, from + 1)
  }

  /** How the call ends over these events: the first settling event decides, or it is still pending. */
  function Settle(c: Call, events: seq<SseEvent>): Option<Outcome> {
    match FirstDecided(c, events, 0)
    case None => None
    case Some(j) => Decide(c, events[j])
  }

  /** Events that come after the call settled change nothing: it settles at most once. */
  lemma {:induction false} SettlesOnce(c: Call, events: seq<SseEvent>, later: seq<SseEvent>)
    requires Settle(c, events).Some?
    ensures Settle(c, events + later) == Settle(c, events)
  {
    var j := FirstDecided(c, events, 0).value;
    FirstDecidedPrefix(c, events, later, 0, j);
    assert (events + later)[j] == events[j];
  }

  lemma {:induction false} FirstDecidedPrefix(c: Call, events: seq<SseEvent>, later: seq<SseEvent>, from: nat, j: nat)
    requires from <= j < |events|
    requires FirstDecided(c, events, from) == Some(j)
    ensures FirstDecided(c, events + later, from) == Some(j)
    decreases j - from
  {
    assert (events + later)[from] == events[from];
    if from < j {
      FirstDecidedPrefix(c, events, later, from + 1, j);
    }
  }

  /** A message is for another call when it parses to a value whose id is not this call's. */
  predicate Foreign(c: Call, e: SseEvent) {
    e.Message? && c.parse(e.data).Success? && !IsNullish(c.parse(e.data).value)
    && Get(c.parse(e.data).value, "id") != Num(c.id)
  }

  /** Messages for other calls are skipped: they neither settle the call nor change how it settles. */
  lemma {:induction false} ForeignMessagesAreSkipped(c: Call, foreign: seq<SseEvent>, rest: seq<SseEvent>)
    requires forall i :: 0 <= i < |foreign| ==> Foreign(c, foreign[i])
    ensures Settle(c, foreign + rest) == Settle(c, rest)
  {
    FirstDecidedSkip(c, foreign, rest, 0);
    match FirstDecided(c, rest, 0)
    case None =>
    case Some(j) => assert (foreign + rest)[|foreign| + j] == rest[j];
  }

  lemma {:induction false} FirstDecidedSkip(c: Call, foreign: seq<SseEvent>, rest: seq<SseEvent>, from: nat)
    requires from <= |foreign|
    requires forall i :: 0 <= i < |foreign| ==> Foreign(c, foreign[i])
    ensures FirstDecided(c, foreign + rest, from)
      == (match FirstDecided(c, rest, 0) case None => None case Some(j) => Some(|foreign| + j))
    decreases |foreign| + |rest| - from
  {
    var all := foreign + rest;
    if from < |foreign| {
      assert all[from] == foreign[from];
      FirstDecidedSkip(c, foreign, rest, from + 1);
    } else {
      FirstDecidedShift(c, foreign, rest, 0);
    }
  }

  lemma {:induction false} FirstDecidedShift(c: Call, foreign: seq<SseEvent>, rest: seq<SseEvent>, k: nat)
    requires k <= |rest|
    ensures FirstDecided(c, foreign + rest, |foreign| + k)
      == (match FirstDecided(c, rest, k) case None => None case Some(j) => Some(|foreign| + j))
    decreases |rest| - k
  {
    if k < |rest| {
      assert (foreign + rest)[|foreign| + k] == rest[k];
      FirstDecidedShift(c, foreign, rest, k + 1);
    }
  }

  class McpSseClient {
    const baseUrl: string
    const customHeaders: map<string, string>
    const parse: string -> Result<Value, string>
    const stringify: Value -> string

    var requestId: nat
    /** The requests sent so far, in order. */
    var requests: seq<Value>
    /** The URLs event sources were opened on, in order. */
    var sources: seq<SseUrl>

    /** The requests sent so far carry the ids 1, 2, …, requestId - 1, in that order. */
    ghost predicate Valid()
      reads this
    {
      && requestId == |requests| + 1
      && |sources| == |requests|
      && forall i :: 0 <= i < |requests| ==> Get(requests[i], "id") == Num(i + 1)
    }

    /** One trailing '/' is dropped from the base URL; the custom headers default to none. */
    constructor(baseUrl: string, customHeaders: Option<map<string, string>>,
                parse: string -> Result<Value, string>, stringify: Value -> string)
      ensures Valid() && requestId == 1 && requests == [] && sources == []
      ensures this.baseUrl == StripTrailingSlash(baseUrl) && this.customHeaders == customHeaders.GetOr(map[])
      ensures this.parse == parse && this.stringify == stringify
    {
      this.baseUrl := StripTrailingSlash(baseUrl);
      this.customHeaders := customHeaders.GetOr(map[]);
      this.parse := parse;
      this.stringify := stringify;
      requestId := 1;
      requests := [];
      sources := [];
    }

    /**
     * sendRequest: the call takes the next id, opens an event source on the
     * request's URL and reads the delivered events in order until one
     * settles it; the source is closed right after that event, so no later
     * event is read. `delivered` is the number of events read.
     */
    method SendRequest(rpcMethod: string, params: Value, events: seq<SseEvent>)
      returns (outcome: Option<Outcome>, delivered: nat)
      requires Valid()
      modifies this`requestId, this`requests, this`sources
      ensures Valid() && requestId == old(requestId) + 1
      ensures requests == old(requests) + [RpcRequest(old(requestId), rpcMethod, params)]
      ensures sources == old(sources)
        + [SseUrl(baseUrl + "/sse", RequestQuery(stringify(RpcRequest(old(requestId), rpcMethod, params)), customHeaders))]
      ensures var c := Call(old(requestId), rpcMethod, customHeaders, parse, stringify);
        && outcome == Settle(c, events)
        && (outcome.Some? ==> delivered == FirstDecided(c, events, 0).value + 1)
        && (outcome.None? ==> delivered == |events|)
    {
      var id := requestId;
      requestId := requestId + 1;
      var request := RpcRequest(id, rpcMethod, params);
      requests := requests + [request];
      sources := sources + [SseUrl(baseUrl + "/sse", RequestQuery(stringify(request), customHeaders))];
      var c := Call(id, rpcMethod, customHeaders, parse, stringify);
      outcome := None;
      var i := 0;
      while i < |events| && outcome.None?
        invariant 0 <= i <= |events|
        invariant outcome.None? ==> FirstDecided(c, events, 0) == FirstDecided(c, events, i)
        invariant outcome.Some? ==> 1 <= i && FirstDecided(c, events, 0) == Some(i - 1) && outcome == Decide(c, events[i - 1])
        decreases |events| - i
      {
        outcome := Decide(c, events[i]);
        i := i + 1;
      }
      delivered := i;
    }

    /** listTools: the result of tools/list alone, once the call has settled. */
    method ListTools(events: seq<SseEvent>) returns (r: Option<Result<Value, HttpClient.ClientError>>)
      requires Valid()
      modifies this`requestId, this`requests, this`sources
      ensures Valid() && requestId == old(requestId) + 1
      ensures var o := Settle(Call(old(requestId), "tools/list", customHeaders, parse, stringify), events);
        && (o.None? ==> r.None?)
        && (o.Some? && o.value.Failure? ==> r == Some(Failure(o.value.error)))
        && (o.Some? && o.value.Success? ==> r == Some(Success(o.value.value.result)))
    {
      var o, _ := SendRequest("tools/list", EmptyObj, events);
      match o
      case None => r := None;
      case Some(Failure(e)) => r := Some(Failure(e));
      case Some(Success(a)) => r := Some(Success(a.result));
    }
  }
}
