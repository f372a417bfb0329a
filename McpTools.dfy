/**
 * `fastmcp_to_openai_tools` and the name list of `list_tools`: remote tool descriptors
 * are converted one by one into OpenAI function descriptors, dropping the `$schema`
 * keyword (section 8.1.1 of JSON Schema Core 2020-12) that the OpenAI API does not accept.
 *
 * Fetching the descriptors from the MCP server is an oracle input: the model receives the
 * fetched list.
 */
module McpTools {
  import opened Wrappers
  import opened Json

  /** A fetched descriptor; None stands for an attribute or key that is absent. */
  datatype McpTool = McpTool(name: Option<string>, description: Option<string>, inputSchema: Option<Json>)

  const SchemaKeyword := "$schema"

  /** `get_attr(tool, key)` of a string attribute: its value, or null when it is absent. */
  function OrNull(v: Option<string>): (j: Json)
    ensures v.None? <==> j.JNull?
    ensures v.Some? ==> j == JStr(v.value)
  {
    match v
    case Some(s) => JStr(s)
    case None => JNull
  }

  /** The `parameters` of a converted descriptor: a present, truthy schema without its
      top-level `$schema` member; an empty object schema otherwise. Removal works on the
      copy, so the fetched schema itself is a value that never changes. */
  function Parameters(raw: Option<Json>): (p: Json)
  {
    if raw.Some? && Truthy(raw.value) then
      match raw.value
      case JObj(fields) => JObj(Remove(fields, SchemaKeyword))
      case _ => raw.value
    else EmptyObjectSchema
  }

  function Convert(t: McpTool): Json
  {
    JObj([
      ("type", JStr("function")),
      ("function", JObj([
        ("name", OrNull(t.name)),
        ("description", OrNull(t.description)),
        ("parameters", Parameters(t.inputSchema))]))])
  }

  /** The parameters lose exactly the `$schema` member: every other member of an object
      schema is kept with its value; a missing or empty schema becomes the empty object
      schema. */
  lemma ParametersSpec(raw: Option<Json>, other: string)
    requires other != SchemaKeyword
    ensures raw.None? || !Truthy(raw.value) ==> Parameters(raw) == EmptyObjectSchema
    ensures raw.Some? && raw.value.JObj? && raw.value.fields != [] ==>
      && Parameters(raw).JObj?
      && SchemaKeyword !in Keys(Parameters(raw).fields)
      && Get(Parameters(raw).fields, other) == Get(raw.value.fields, other)
    ensures raw.Some? && raw.value.JObj? && raw.value.fields != [] && SchemaKeyword !in Keys(raw.value.fields)
            ==> Parameters(raw) == raw.value
  {
    if raw.Some? && raw.value.JObj? && raw.value.fields != [] {
      RemoveKeepsOthers(raw.value.fields, SchemaKeyword, other);
      if SchemaKeyword !in Keys(raw.value.fields) {
        RemoveAbsent(raw.value.fields, SchemaKeyword);
      }
    }
  }

  /** A converted descriptor is a function descriptor whose name, description and
      parameters come from the fetched tool. */
  lemma ConvertShape(t: McpTool)
    ensures Lookup(Convert(t), "type") == Some(JStr("function"))
    ensures Lookup(Convert(t), "function").Some?
    ensures var f := Lookup(Convert(t), "function").value;
      && Lookup(f, "name") == Some(OrNull(t.name))
      && Lookup(f, "description") == Some(OrNull(t.description))
      && Lookup(f, "parameters") == Some(Parameters(t.inputSchema))
  {
    var inner: seq<Field> := [("name", OrNull(t.name)), ("description", OrNull(t.description)),
                              ("parameters", Parameters(t.inputSchema))];
    var outer: seq<Field> := [("type", JStr("function")), ("function", JObj(inner))];
    assert outer[1..][0].0 == "function";
    assert Get(outer, "function") == Some(JObj(inner));
    assert inner[1..][0].0 == "description" && inner[1..][1..][0].0 == "parameters";
    assert Get(inner, "description") == Some(OrNull(t.description));
    assert Get(inner[1..][1..], "parameters") == Some(Parameters(t.inputSchema));
    assert Get(inner[1..], "parameters") == Some(Parameters(t.inputSchema));
  }

  /** The loop of `fastmcp_to_openai_tools`. */
  method FastmcpToOpenaiTools(tools: seq<McpTool>) returns (out: seq<Json>)
    ensures |out| == |tools|
    ensures forall i :: 0 <= i < |tools| ==> out[i] == Convert(tools[i])
  {
    out := [];
    var i := 0;
    while i < |tools|
      invariant 0 <= i <= |tools|
      invariant |out| == i
      invariant forall k :: 0 <= k < i ==> out[k] == Convert(tools[k])
    {
      out := out + [Convert(tools[i])];
      i := i + 1;
    }
  }

  /** The names `list_tools` reports; indexing a descriptor without a name raises, so the
      whole listing fails (None). */
  function ToolNames(tools: seq<McpTool>): (r: Option<seq<string>>)
    ensures r.None? <==> exists i :: 0 <= i < |tools| && tools[i].name.None?
    ensures r.Some? ==> |r.value| == |tools| && forall i :: 0 <= i < |tools| ==> Some(r.value[i]) == tools[i].name
  {
    if tools == [] then Some([])
    else if tools[0].name.None? then None
    else
      match ToolNames(tools[1..])
      case None => None
      case Some(rest) => Some([tools[0].name.value] + rest)
  }

  /** `list_tools`: the converted descriptors and, in the same order, their names. */
  function ListTools(tools: seq<McpTool>): Option<(seq<Json>, seq<string>)>
  {
    match ToolNames(tools)
    case None => None
    case Some(names) => Some((seq(|tools|, i requires 0 <= i < |tools| => Convert(tools[i])), names))
  }

  /** Each reported name is the name inside the descriptor at the same position. */
  lemma ListToolsAligned(tools: seq<McpTool>)
    requires ListTools(tools).Some?
    ensures var (descriptors, names) := ListTools(tools).value;
      && |descriptors| == |names| == |tools|
      && forall i :: 0 <= i < |tools| ==>
           && Lookup(descriptors[i], "type") == Some(JStr("function"))
           && Lookup(descriptors[i], "function").Some?
           && Lookup(Lookup(descriptors[i], "function").value, "name") == Some(JStr(names[i]))
  {
    forall i | 0 <= i < |tools| {
      ConvertShape(tools[i]);
    }
  }
}
