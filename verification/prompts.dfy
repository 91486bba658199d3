/**
 * The MCP prompt catalog: the agent's brief and full prompt followed by the
 * project's own prompts, built on first use and kept; the listing view
 * without contents; and prompts/get, which resolves a prompt's text.
 */
module Prompts {
  import opened Wrappers
  import opened Js
  import McpErrors

  /** A prompt's content: fixed text, or a function of the whole prompts/get request. */
  datatype PromptContent = Text(text: string) | Computed(render: Value -> string)

  datatype PromptData = PromptData(name: string, description: string, arguments: seq<Value>, content: PromptContent)

  /** createPrompts: agent_brief, agent_prompt, then the custom prompts in their order. */
  function CreatePrompts(agentBrief: string, agentPrompt: string, customPrompts: seq<PromptData>): (r: seq<PromptData>)
    ensures |r| == |customPrompts| + 2
    ensures r[0].name == "agent_brief" && r[0].content == Text(agentBrief) && r[0].arguments == []
    ensures r[1].name == "agent_prompt" && r[1].content == Text(agentPrompt) && r[1].arguments == []
    ensures r[2..] == customPrompts
  {
    [ PromptData("agent_brief", "Brief description of the agent to be selected in the agent system", [], Text(agentBrief)),
      PromptData("agent_prompt", "Detailed prompt of the agent", [], Text(agentPrompt)) ]
    + customPrompts
  }

  /** A prompt without its content: every other field kept. */
  function PromptInfo(p: PromptData): (r: Value)
    ensures r.Obj? && r.props.Keys == {"name", "description", "arguments"}
    ensures Get(r, "name") == Str(p.name) && Get(r, "description") == Str(p.description)
    ensures Get(r, "arguments") == Arr(p.arguments)
  {
    Obj(map["name" := Str(p.name), "description" := Str(p.description), "arguments" := Arr(p.arguments)])
  }

  /** getPromptsList's value: `{prompts}` with each prompt's content removed, in order. */
  function PromptsList(ps: seq<PromptData>): (r: Value)
    ensures r.Obj? && r.props.Keys == {"prompts"} && Get(r, "prompts").Arr?
    ensures |Get(r, "prompts").items| == |ps|
    ensures forall i :: 0 <= i < |ps| ==> Get(r, "prompts").items[i] == PromptInfo(ps[i])
  {
    Obj(map["prompts" := Arr(seq(|ps|, i requires 0 <= i < |ps| => PromptInfo(ps[i])))])
  }

  /** The index of the first prompt named `name`, searching from `from`. */
  function FindFrom(ps: seq<PromptData>, name: Value, from: nat): (r: Option<nat>)
    requires from <= |ps|
    ensures r.Some? ==> from <= r.value < |ps| && Str(ps[r.value].name) == name
    ensures r.Some? ==> forall j :: from <= j < r.value ==> Str(ps[j].name) != name
    ensures r.None? ==> forall j :: from <= j < |ps| ==> Str(ps[j].name) != name
    decreases |ps| - from
  {
    if from == |ps| then None
    else if Str(ps[from].name) == name then Some(from)
    else FindFrom(ps, name, from + 1)
  }

  /** The first prompt whose name is `name`. */
  function Find(ps: seq<PromptData>, name: Value): (r: Option<nat>)
    ensures r.Some? ==>
      && r.value < |ps| && Str(ps[r.value].name) == name
      && forall j :: 0 <= j < r.value ==> Str(ps[j].name) != name
    ensures r.None? ==> forall j :: 0 <= j < |ps| ==> Str(ps[j].name) != name
  {
    FindFrom(ps, name, 0)
  }

  /** The text a prompt resolves to for a request; a computed content is called with the request. */
  function Resolve(c: PromptContent, request: Value): string {
    match c
    case Text(t) => t
    case Computed(render) => render(request)
  }

  /** The one-message result of prompts/get. */
  function PromptMessages(text: string): (r: Value)
    ensures r.Obj? && r.props.Keys == {"messages"}
    ensures Get(r, "messages") == Arr([Obj(map[
      "role" := Str("system"),
      "content" := Obj(map["type" := Str("text"), "text" := Str(text)])])])
  {
    Obj(map["messages" := Arr([Obj(map[
      "role" := Str("system"),
      "content" := Obj(map["type" := Str("text"), "text" := Str(text)])])])])
  }

  function DestructureError(v: Value, what: string, property: string): string {
    "Cannot destructure property '" + property + "' of '" + what + "' as it is "
      + (if v.Null? then "null" else "undefined") + "."
  }

  /**
   * getPrompt over a prompt list: the first prompt with the requested name,
   * its content resolved; a missing prompt or an empty text is an error.
   */
  function GetPromptFrom(ps: seq<PromptData>, request: Value): (r: Result<Value, McpErrors.Thrown>)
    ensures IsNullish(Get(request, "params")) ==> r.Failure?
    ensures !IsNullish(Get(request, "params")) ==>
      var name := Get(Get(request, "params"), "name");
      var i := Find(ps, name);
      && (r.Success? <==> i.Some? && Resolve(ps[i.value].content, request) != "")
      && (r.Success? ==> r.value == PromptMessages(Resolve(ps[i.value].content, request)))
      && (r.Failure? ==> r.error == McpErrors.PlainError("Unknown prompt: " + ToStr(name)))
  {
    var params := Get(request, "params");
    if IsNullish(params) then Failure(McpErrors.PlainError(DestructureError(params, "request.params", "name")))
    else
      var name := Get(params, "name");
      var text := match Find(ps, name) case None => "" case Some(i) => Resolve(ps[i].content, request);
      if text == "" then Failure(McpErrors.PlainError("Unknown prompt: " + ToStr(name)))
      else Success(PromptMessages(text))
  }

  /** The two agent prompts come first and the custom ones follow, in order. */
  lemma ListOrder(agentBrief: string, agentPrompt: string, customPrompts: seq<PromptData>)
    ensures var items := Get(PromptsList(CreatePrompts(agentBrief, agentPrompt, customPrompts)), "prompts").items;
      && |items| == |customPrompts| + 2
      && Get(items[0], "name") == Str("agent_brief")
      && Get(items[1], "name") == Str("agent_prompt")
      && (forall i :: 0 <= i < |customPrompts| ==> items[i + 2] == PromptInfo(customPrompts[i]))
      && forall i :: 0 <= i < |items| ==> "content" !in items[i].props
  {
    var ps := CreatePrompts(agentBrief, agentPrompt, customPrompts);
    forall i | 0 <= i < |customPrompts| ensures ps[i + 2] == customPrompts[i] {
      assert ps[2..][i] == customPrompts[i];
    }
  }

  /** A custom prompt named like an agent prompt is shadowed by it. */
  lemma AgentPromptsShadowCustom(agentBrief: string, agentPrompt: string, customPrompts: seq<PromptData>, request: Value)
    requires !IsNullish(Get(request, "params")) && Get(Get(request, "params"), "name") == Str("agent_brief")
    requires agentBrief != ""
    ensures GetPromptFrom(CreatePrompts(agentBrief, agentPrompt, customPrompts), request) == Success(PromptMessages(agentBrief))
  {
    var ps := CreatePrompts(agentBrief, agentPrompt, customPrompts);
    assert Find(ps, Str("agent_brief")) == Some(0);
  }

  /** The prompt catalog with its build-once cache. */
  class PromptStore {
    const agentBrief: string
    const agentPrompt: string
    const customPrompts: seq<PromptData>
    var cache: Option<seq<PromptData>>

    /** Once built, the cache holds exactly the created list. */
    ghost predicate Valid()
      reads this
    {
      cache.Some? ==> cache.value == CreatePrompts(agentBrief, agentPrompt, customPrompts)
    }

    constructor(agentBrief: string, agentPrompt: string, customPrompts: seq<PromptData>)
      ensures Valid() && cache.None?
      ensures this.agentBrief == agentBrief && this.agentPrompt == agentPrompt
      ensures this.customPrompts == customPrompts
    {
      this.agentBrief := agentBrief;
      this.agentPrompt := agentPrompt;
      this.customPrompts := customPrompts;
      cache := None;
    }

    /** getPrompts: builds the list on first use; later calls return the same list. */
    method GetPrompts() returns (ps: seq<PromptData>)
      requires Valid()
      modifies this
      ensures Valid() && cache == Some(ps)
      ensures ps == CreatePrompts(agentBrief, agentPrompt, customPrompts)
      ensures old(cache).Some? ==> ps == old(cache).value
    {
      if cache.None? {
        cache := Some(CreatePrompts(agentBrief, agentPrompt, customPrompts));
      }
      ps := cache.value;
    }

    method GetPromptsList() returns (r: Value)
      requires Valid()
      modifies this
      ensures Valid() && cache.Some?
      ensures r == PromptsList(CreatePrompts(agentBrief, agentPrompt, customPrompts))
    {
      var ps := GetPrompts();
      r := PromptsList(ps);
    }

    method GetPrompt(request: Value) returns (r: Result<Value, McpErrors.Thrown>)
      requires Valid()
      modifies this
      ensures Valid() && cache.Some?
      ensures r == GetPromptFrom(CreatePrompts(agentBrief, agentPrompt, customPrompts), request)
    {
      var ps := GetPrompts();
      r := GetPromptFrom(ps, request);
    }
  }
}
