/**
 * What the test clients see of the network: the JSON-RPC messages they
 * send, the POST that carries one, and what `fetch` gives back — a
 * rejection, or a response whose body is read with `response.json()`,
 * which can itself fail.
 */
module Network {
  import opened Wrappers
  import opened Js

  /** One POST: the URL, the request headers and the JSON body. */
  datatype Post = Post(url: string, headers: map<string, string>, body: Value)

  datatype FetchOutcome =
    | Rejected(reason: string)
    | Responded(status: int, statusText: string, json: Result<Value, string>)
  {
    /** `response.ok`: a 2xx status. */
    predicate Ok()
      requires Responded?
    {
      200 <= status <= 299
    }
  }

  /** `s.replace(/\/$/, '')`: one trailing slash, if there is one, is removed. */
  function StripTrailingSlash(s: string): (r: string)
    ensures |s| > 0 && s[|s| - 1] == '/' ==> r + "/" == s
    ensures !(|s| > 0 && s[|s| - 1] == '/') ==> r == s
  {
    if |s| > 0 && s[|s| - 1] == '/' then s[..|s| - 1] else s
  }

  /** A JSON-RPC call with its id. */
  function RpcRequest(id: nat, rpcMethod: string, params: Value): Value {
    Obj(map["jsonrpc" := Str("2.0"), "id" := Num(id), "method" := Str(rpcMethod), "params" := params])
  }

  /** A JSON-RPC notification: it has no id. */
  function Notification(rpcMethod: string, params: Value): Value {
    Obj(map["jsonrpc" := Str("2.0"), "method" := Str(rpcMethod), "params" := params])
  }

  /** The ids carried by the POSTs, in order; notifications carry none. */
  function CallIds(posts: seq<Post>): seq<Value> {
    if posts == [] then []
    else
      var last := posts[|posts| - 1];
      CallIds(posts[..|posts| - 1])
        + (if last.body.Obj? && "id" in last.body.props then [last.body.props["id"]] else [])
  }

  /** The numbers 1 .. n, as JSON numbers. */
  function Counting(n: nat): (r: seq<Value>)
    ensures |r| == n && forall i :: 0 <= i < n ==> r[i] == Num(i + 1)
  {
    seq(n, i requires 0 <= i < n => Num(i + 1))
  }

  lemma CallIdsAppend(posts: seq<Post>, p: Post)
    ensures CallIds(posts + [p])
      == CallIds(posts) + (if p.body.Obj? && "id" in p.body.props then [p.body.props["id"]] else [])
  {
    assert (posts + [p])[..|posts|] == posts;
  }
}
