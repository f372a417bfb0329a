/**
 * The tool package entry points: the advertised tool list (local descriptors followed by
 * the MCP descriptors) and the flattening of an MCP call result into text in
 * `execute_mcp_tools`. The call to the MCP server itself is an oracle input: the model
 * receives its result.
 */
module Tools {
  import opened Wrappers
  import opened Json
  import opened Strings

  /** `tools = py_tools_list + mcp_tools_list`. */
  function AdvertisedTools(local: seq<Json>, mcp: seq<Json>): (ts: seq<Json>)
    ensures |ts| == |local| + |mcp|
    ensures ts[..|local|] == local && ts[|local|..] == mcp
  {
    local + mcp
  }

  /** One item of a result's `content`: its `text` attribute when it has one, and the
      rendering `str(item)` used otherwise. */
  datatype ContentItem = ContentItem(text: Option<string>, repr: string)

  /** What `client.call_tool` returned: an object with a `content` list, or something
      without one, given by its `str`. */
  datatype CallResult = WithContent(content: seq<ContentItem>) | NoContent(repr: string)

  /** The text one item contributes. */
  function PartText(item: ContentItem): (t: string)
    ensures item.text.Some? ==> t == item.text.value
    ensures item.text.None? ==> t == item.repr
  {
    item.text.GetOr(item.repr)
  }

  function PartTexts(items: seq<ContentItem>): (ts: seq<string>)
    ensures |ts| == |items|
    ensures forall i :: 0 <= i < |items| ==> ts[i] == PartText(items[i])
  {
    seq(|items|, i requires 0 <= i < |items| => PartText(items[i]))
  }

  /** The string `execute_mcp_tools` returns for a call result. */
  function ResultText(r: CallResult): string
  {
    match r
    case WithContent(items) => Join(PartTexts(items), "\n")
    case NoContent(repr) => repr
  }

  /** The loop that collects `content_parts`, then the join. */
  method ExecuteMcpTools(result: CallResult) returns (text: string)
    ensures text == ResultText(result)
  {
    if result.NoContent? {
      return result.repr;
    }
    var items := result.content;
    var parts: seq<string> := [];
    var i := 0;
    while i < |items|
      invariant 0 <= i <= |items|
      invariant parts == PartTexts(items[..i])
    {
      var item := items[i];
      if item.text.Some? {
        parts := parts + [item.text.value];
      } else {
        parts := parts + [item.repr];
      }
      i := i + 1;
    }
    assert items[..i] == items;
    text := Join(parts, "\n");
  }

  /** An empty content list gives the empty string, a single item its own text, and a
      result without content its rendering. */
  lemma ResultTextCases(r: CallResult)
    ensures r.WithContent? && r.content == [] ==> ResultText(r) == ""
    ensures r.WithContent? && |r.content| == 1 ==> ResultText(r) == PartText(r.content[0])
    ensures r.NoContent? ==> ResultText(r) == r.repr
  {
  }

  /** The parts appear in content order, separated by single newlines: when no part holds a
      newline, splitting the text at newlines gives back exactly the parts. */
  lemma ResultTextSplits(items: seq<ContentItem>)
    requires items != []
    requires forall i :: 0 <= i < |items| ==> '\n' !in PartText(items[i])
    ensures Split(ResultText(WithContent(items)), '\n') == PartTexts(items)
  {
    SplitJoin(PartTexts(items), '\n');
  }

  /** The text is as long as the parts plus one newline between each neighbouring pair. */
  lemma ResultTextLength(items: seq<ContentItem>)
    requires items != []
    ensures |ResultText(WithContent(items))| == TotalLength(PartTexts(items)) + |items| - 1
  {
    JoinLength(PartTexts(items), "\n");
  }
}
