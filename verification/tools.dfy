/**
 * The template's tool catalog: the input schemas, the two advertised tools
 * and the lookups by name.
 */
module Tools {
  import opened Wrappers
  import opened Js

  /**
   * getGenericInputSchema: a required string `query` (with a default
   * description when none is given) followed by the caller's own
   * properties, which win over `query` when they name it too.
   */
  function GenericInputSchema(queryDescription: string, additionalProperties: map<string, Value>): (r: Value)
    ensures r.Obj? && r.props.Keys == {"type", "properties", "required"}
    ensures Get(r, "type") == Str("object") && Get(r, "required") == Arr([Str("query")])
    ensures Get(r, "properties").Obj?
    ensures Get(r, "properties").props.Keys == {"query"} + additionalProperties.Keys
    ensures forall k :: k in additionalProperties ==> Get(Get(r, "properties"), k) == additionalProperties[k]
    ensures "query" !in additionalProperties ==>
      Get(Get(Get(r, "properties"), "query"), "description")
        == Str(if queryDescription == "" then "Input query or text" else queryDescription)
  {
    var query := Obj(map[
      "type" := Str("string"),
      "description" := Str(if queryDescription == "" then "Input query or text" else queryDescription)]);
    Obj(map[
      "type" := Str("object"),
      "properties" := Obj(map["query" := query] + additionalProperties),
      "required" := Arr([Str("query")])])
  }

  function NumberProperty(description: string, minimum: int, maximum: int): Value {
    Obj(map["type" := Str("number"), "description" := Str(description), "minimum" := Num(minimum), "maximum" := Num(maximum)])
  }

  /** getSearchInputSchema: query, limit in 1..100 and threshold in 0..1; only query is required. */
  function SearchInputSchema(): (r: Value)
    ensures r.Obj? && r.props.Keys == {"type", "properties", "required"}
    ensures Get(r, "required") == Arr([Str("query")])
    ensures Get(r, "properties").Obj? && Get(r, "properties").props.Keys == {"query", "limit", "threshold"}
    ensures Get(Get(Get(r, "properties"), "limit"), "minimum") == Num(1)
    ensures Get(Get(Get(r, "properties"), "limit"), "maximum") == Num(100)
    ensures Get(Get(Get(r, "properties"), "threshold"), "minimum") == Num(0)
    ensures Get(Get(Get(r, "properties"), "threshold"), "maximum") == Num(1)
  {
    Obj(map[
      "type" := Str("object"),
      "properties" := Obj(map[
        "query" := Obj(map["type" := Str("string"), "description" := Str("Search query")]),
        "limit" := NumberProperty(LimitDescription, 1, 100),
        "threshold" := NumberProperty("Minimum similarity threshold (0-1)", 0, 1)]),
      "required" := Arr([Str("query")])])
  }

  datatype Tool = Tool(name: string, description: string, inputSchema: Value)

  const ExampleToolDescription: string := "Example tool that processes text input. Replace with your actual tools."
  const ExampleSearchDescription: string := "Example search tool with pagination and filtering. Template for search-based tools."
  const LimitDescription: string := "Maximum number of results to return (1-100, default: 20)"

  /** The advertised tools, in order. */
  function ToolList(): (r: seq<Tool>)
    ensures |r| == 2 && r[0].name == "example_tool" && r[1].name == "example_search"
    ensures r[0].inputSchema == GenericInputSchema("Text to process", map[])
    ensures r[1].inputSchema == SearchInputSchema()
  {
    [ Tool("example_tool", ExampleToolDescription,
        GenericInputSchema("Text to process", map[])),
      Tool("example_search", ExampleSearchDescription,
        SearchInputSchema()) ]
  }

  function FindFrom(ts: seq<Tool>, name: string, from: nat): (r: Option<Tool>)
    requires from <= |ts|
    ensures r.Some? <==> exists j :: from <= j < |ts| && ts[j].name == name
    ensures r.Some? ==>
      exists j :: from <= j < |ts| && ts[j] == r.value && ts[j].name == name
        && forall i :: from <= i < j ==> ts[i].name != name
    decreases |ts| - from
  {
    if from == |ts| then None
    else if ts[from].name == name then Some(ts[from])
    else FindFrom(ts, name, from + 1)
  }

  /** getToolByName: the first tool with the name, or nothing. */
  function GetToolByName(name: string): (r: Option<Tool>)
    ensures r.Some? <==> name in {"example_tool", "example_search"}
    ensures r.Some? ==> r.value.name == name
  {
    FindFrom(ToolList(), name, 0)
  }

  /** getToolNames: the tool names in list order. */
  function GetToolNames(): (r: seq<string>)
    ensures |r| == |ToolList()| && forall i :: 0 <= i < |r| ==> r[i] == ToolList()[i].name
    ensures r == ["example_tool", "example_search"]
  {
    var ts := ToolList();
    seq(|ts|, i requires 0 <= i < |ts| => ts[i].name)
  }

  /** Every listed name finds its own tool. */
  lemma NamesFindTools()
    ensures forall i :: 0 <= i < |GetToolNames()| ==> GetToolByName(GetToolNames()[i]) == Some(ToolList()[i])
  {
    var ts := ToolList();
    assert FindFrom(ts, "example_tool", 0) == Some(ts[0]);
    assert FindFrom(ts, "example_search", 1) == Some(ts[1]);
  }
}
