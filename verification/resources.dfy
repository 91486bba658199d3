/**
 * The MCP resource catalog: the project README, the required-HTTP-headers
 * note when there are any, then the project's own resources; built when
 * the cache is empty; the listing view and resources/read.
 */
module Resources {
  import opened Wrappers
  import opened Js
  import McpErrors

  /** A resource's content: fixed text, or a function of the requested URI. */
  datatype ResourceContent = Text(text: string) | Computed(render: string -> string)

  datatype ResourceData = ResourceData(uri: string, name: string, description: string, mimeType: string, content: ResourceContent)

  datatype RequiredHttpHeader = RequiredHttpHeader(name: string, description: string)

  function HeaderValue(h: RequiredHttpHeader): Value {
    Obj(map["name" := Str(h.name), "description" := Str(h.description)])
  }

  /** The project data the catalog is built from; `stringify` is JSON.stringify. */
  datatype ResourceSource = ResourceSource(
    productName: string,
    readme: string,
    requiredHttpHeaders: seq<RequiredHttpHeader>,
    customResources: seq<ResourceData>,
    stringify: Value -> string)

  const ReadmeBlurb: string := " project documentation:\ninstallation, launch (STDIO/HTTP), MCP API, configuration, testing and deployment."

  function Readme(src: ResourceSource): (r: ResourceData)
    ensures r.uri == "doc://readme" && r.content == Text(src.readme)
  {
    ResourceData("doc://readme", "README - " + src.productName,
      src.productName + ReadmeBlurb,
      "text/plain", Text(src.readme))
  }

  function HeadersNote(src: ResourceSource): (r: ResourceData)
    ensures r.uri == "required://http-headers"
  {
    ResourceData("required://http-headers", "Required http headers", "Required http headers", "text/plain",
      Text(src.stringify(Arr(seq(|src.requiredHttpHeaders|, i requires 0 <= i < |src.requiredHttpHeaders| =>
        HeaderValue(src.requiredHttpHeaders[i]))))))
  }

  /** createResources: readme, the headers note only when headers are required, then the custom resources. */
  function CreateResources(src: ResourceSource): (r: seq<ResourceData>)
    ensures |r| >= 1 && r[0].uri == "doc://readme" && r[0].content == Text(src.readme)
    ensures |src.requiredHttpHeaders| == 0 ==> r == [Readme(src)] + src.customResources
    ensures |src.requiredHttpHeaders| > 0 ==>
      && r == [Readme(src), HeadersNote(src)] + src.customResources
      && r[1].uri == "required://http-headers"
  {
    if |src.requiredHttpHeaders| > 0 then [Readme(src), HeadersNote(src)] + src.customResources
    else [Readme(src)] + src.customResources
  }

  /** A resource without its content: uri, name, description and mimeType. */
  function ResourceInfo(r: ResourceData): (v: Value)
    ensures v.Obj? && v.props.Keys == {"uri", "name", "description", "mimeType"}
    ensures Get(v, "uri") == Str(r.uri) && Get(v, "name") == Str(r.name)
    ensures Get(v, "description") == Str(r.description) && Get(v, "mimeType") == Str(r.mimeType)
  {
    Obj(map["uri" := Str(r.uri), "name" := Str(r.name), "description" := Str(r.description), "mimeType" := Str(r.mimeType)])
  }

  function ResourcesList(rs: seq<ResourceData>): (r: Value)
    ensures r.Obj? && r.props.Keys == {"resources"} && Get(r, "resources").Arr?
    ensures |Get(r, "resources").items| == |rs|
    ensures forall i :: 0 <= i < |rs| ==> Get(r, "resources").items[i] == ResourceInfo(rs[i])
  {
    Obj(map["resources" := Arr(seq(|rs|, i requires 0 <= i < |rs| => ResourceInfo(rs[i])))])
  }

  /** The index of the first resource with the URI, searching from `from`. */
  function FindFrom(rs: seq<ResourceData>, uri: string, from: nat): (r: Option<nat>)
    requires from <= |rs|
    ensures r.Some? ==> from <= r.value < |rs| && rs[r.value].uri == uri
    ensures r.Some? ==> forall j :: from <= j < r.value ==> rs[j].uri != uri
    ensures r.None? ==> forall j :: from <= j < |rs| ==> rs[j].uri != uri
    decreases |rs| - from
  {
    if from == |rs| then None
    else if rs[from].uri == uri then Some(from)
    else FindFrom(rs, uri, from + 1)
  }

  function Resolve(c: ResourceContent, uri: string): string {
    match c
    case Text(t) => t
    case Computed(render) => render(uri)
  }

  /** The single-entry result of resources/read. */
  function ResourceContents(res: ResourceData, text: string): (r: Value)
    ensures r.Obj? && r.props.Keys == {"contents"}
    ensures Get(r, "contents") ==
      Arr([Obj(map["uri" := Str(res.uri), "mimeType" := Str(res.mimeType), "text" := Str(text)])])
  {
    Obj(map["contents" := Arr([Obj(map["uri" := Str(res.uri), "mimeType" := Str(res.mimeType), "text" := Str(text)])])])
  }

  /** getResource over a resource list. */
  function GetResourceFrom(rs: seq<ResourceData>, uri: string): (r: Result<Value, McpErrors.Thrown>)
    ensures FindFrom(rs, uri, 0).None? ==> r == Failure(McpErrors.PlainError("Unknown resource: " + uri))
    ensures FindFrom(rs, uri, 0).Some? ==>
      var res := rs[FindFrom(rs, uri, 0).value];
      var text := Resolve(res.content, uri);
      && (text == "" ==> r == Failure(McpErrors.PlainError("Can not get content of resource '" + uri + "' by custom handler")))
      && (text != "" ==> r == Success(ResourceContents(res, text)))
  {
    match FindFrom(rs, uri, 0)
    case None => Failure(McpErrors.PlainError("Unknown resource: " + uri))
    case Some(i) =>
      var text := Resolve(rs[i].content, uri);
      if text == "" then Failure(McpErrors.PlainError("Can not get content of resource '" + uri + "' by custom handler"))
      else Success(ResourceContents(rs[i], text))
  }

  /** The README is always readable, whatever the project adds after it. */
  lemma ReadmeAlwaysReadable(src: ResourceSource)
    requires src.readme != ""
    ensures GetResourceFrom(CreateResources(src), "doc://readme") == Success(ResourceContents(Readme(src), src.readme))
  {
    var rs := CreateResources(src);
    assert rs[0] == Readme(src);
    assert FindFrom(rs, "doc://readme", 0) == Some(0);
  }

  /** The listing shows the resources from position `k` on in their order. */
  lemma ListFrom(rs: seq<ResourceData>, k: nat, rest: seq<ResourceData>)
    requires k <= |rs| && rs[k..] == rest
    ensures var items := Get(ResourcesList(rs), "resources").items;
      && |items| == k + |rest|
      && forall i :: 0 <= i < |rest| ==> items[k + i] == ResourceInfo(rest[i])
  {
    forall i | 0 <= i < |rest| ensures rs[k + i] == rest[i] {
      assert rs[k..][i] == rs[k + i];
    }
  }

  /** How many built-in resources come first: the README, and the headers note when headers are required. */
  function BuiltInCount(src: ResourceSource): nat {
    if |src.requiredHttpHeaders| > 0 then 2 else 1
  }

  lemma CustomAfterBuiltIns(src: ResourceSource)
    ensures BuiltInCount(src) <= |CreateResources(src)| && CreateResources(src)[BuiltInCount(src)..] == src.customResources
  {
  }

  /** The listing has one entry per resource, custom resources last and in order. */
  lemma ListKeepsCustomOrder(src: ResourceSource)
    ensures var items := Get(ResourcesList(CreateResources(src)), "resources").items;
      && |items| == BuiltInCount(src) + |src.customResources|
      && forall i :: 0 <= i < |src.customResources| ==> items[BuiltInCount(src) + i] == ResourceInfo(src.customResources[i])
  {
    CustomAfterBuiltIns(src);
    ListFrom(CreateResources(src), BuiltInCount(src), src.customResources);
  }

  /** The resource catalog; the cache is rebuilt whenever it is empty. */
  class ResourceStore {
    const source: ResourceSource
    var cache: seq<ResourceData>

    ghost predicate Valid()
      reads this
    {
      |cache| > 0 ==> cache == CreateResources(source)
    }

    constructor(source: ResourceSource)
      ensures Valid() && cache == [] && this.source == source
    {
      this.source := source;
      cache := [];
    }

    /** getResources: builds the list while the cache is empty; it never is afterwards. */
    method GetResources() returns (rs: seq<ResourceData>)
      requires Valid()
      modifies this
      ensures Valid() && |cache| > 0 && rs == cache
      ensures rs == CreateResources(source)
      ensures |old(cache)| > 0 ==> rs == old(cache)
    {
      if |cache| == 0 {
        cache := CreateResources(source);
      }
      rs := cache;
    }

    method GetResourcesList() returns (r: Value)
      requires Valid()
      modifies this
      ensures Valid() && |cache| > 0
      ensures r == ResourcesList(CreateResources(source))
    {
      var rs := GetResources();
      r := ResourcesList(rs);
    }

    method GetResource(uri: string) returns (r: Result<Value, McpErrors.Thrown>)
      requires Valid()
      modifies this
      ensures Valid() && |cache| > 0
      ensures r == GetResourceFrom(CreateResources(source), uri)
    {
      var rs := GetResources();
      r := GetResourceFrom(rs, uri);
    }
  }
}
