// The MCP tool executor and the composite executor
// (crates/agent-mcp/src/executor.rs): rendering a tool result as text,
// dispatching a call through the alias index to the server manager and
// mapping its errors, and the rule that built-in tools are tried first.
// The alias index, the manager and the two executors of the composite are
// collaborators, passed as functions.
module McpExecutor {
  import opened Wrappers
  import opened Strings
  import opened JsonValue
  import opened McpTypes
  import opened McpErrors
  import opened ToolTypes
  import SeqUtil

  /** The text of one content item. */
  function RenderItem(item: McpContentItem): (s: string)
    ensures item.Text? ==> s == item.text
    ensures item.Image? ==> StartsWith(s, "[Image: " + item.mimeType + " (") && EndsWith(s, " bytes)]")
    ensures item.Image? ==> s == "[Image: " + item.mimeType + " (" + NatToString(|item.data|) + " bytes)]"
    ensures item.Resource? ==> StartsWith(s, "[Resource " + item.resource.uri + "]")
    ensures item.Resource? ==> (item.resource.text.None? <==> s == "[Resource " + item.resource.uri + "]")
    ensures item.Resource? && item.resource.text.Some? ==>
              s == "[Resource " + item.resource.uri + "]" + ": " + item.resource.text.value
  {
    match item
    case Text(t) => t
    case Image(data, mime) => RenderImage(data, mime)
    case Resource(r) => RenderResource(r)
  }

  /** An image shows its mime type and its data size in bytes. */
  function RenderImage(data: string, mime: string): (s: string)
    ensures StartsWith(s, "[Image: " + mime + " (") && EndsWith(s, " bytes)]")
    ensures s == "[Image: " + mime + " (" + NatToString(|data|) + " bytes)]"
  {
    var head := "[Image: " + mime + " (";
    var tail := NatToString(|data|) + " bytes)]";
    StartsWithAppend(head, tail);
    EndsWithAppend(head + NatToString(|data|), " bytes)]");
    AppendAssoc(head, NatToString(|data|), " bytes)]");
    head + tail
  }

  /** The rendering of an image tells its size: two images of one mime type render alike only when equally long. */
  lemma RenderImageTellsSize(d1: string, d2: string, mime: string)
    requires RenderImage(d1, mime) == RenderImage(d2, mime)
    ensures |d1| == |d2|
  {
    var head, tail := "[Image: " + mime + " (", " bytes)]";
    var a, b := NatToString(|d1|), NatToString(|d2|);
    assert head + a + tail == head + b + tail;
    assert |a| == |b|;
    assert a == (head + a + tail)[|head|..|head| + |a|];
    assert b == (head + b + tail)[|head|..|head| + |b|];
    NatToStringInjective(|d1|, |d2|);
  }

  /** A resource shows its uri in brackets, then its text after a colon when it has one. */
  function RenderResource(r: McpResource): (s: string)
    ensures StartsWith(s, "[Resource " + r.uri + "]")
    ensures r.text.None? <==> s == "[Resource " + r.uri + "]"
    ensures r.text.Some? ==> s == "[Resource " + r.uri + "]" + ": " + r.text.value
  {
    var head := "[Resource " + r.uri + "]";
    if r.text.Some? then
      StartsWithAppend(head, ": " + r.text.value);
      head + (": " + r.text.value)
    else
      assert head[..|head|] == head;
      head
  }

  /** `format_result_content`: the items' texts, one per line. */
  function FormatResultContent(content: seq<McpContentItem>): (s: string)
    ensures content == [] ==> s == ""
    ensures |content| > 0 ==> StartsWith(s, RenderItem(content[0])) && EndsWith(s, RenderItem(content[|content| - 1]))
  {
    var texts := SeqUtil.Map(content, RenderItem);
    if |texts| > 0 then
      JoinEnds(texts, "\n");
      Join(texts, "\n")
    else
      Join(texts, "\n")
  }

  /** One item renders as its own text. */
  lemma FormatSingle(item: McpContentItem)
    ensures FormatResultContent([item]) == RenderItem(item)
  {
    assert SeqUtil.Map([item], RenderItem) == [RenderItem(item)];
  }

  /** The rendering of a result made of two parts is the parts' renderings on separate lines. */
  lemma FormatConcat(a: seq<McpContentItem>, b: seq<McpContentItem>)
    requires |a| > 0 && |b| > 0
    ensures FormatResultContent(a + b) == FormatResultContent(a) + "\n" + FormatResultContent(b)
  {
    assert SeqUtil.Map(a + b, RenderItem) == SeqUtil.Map(a, RenderItem) + SeqUtil.Map(b, RenderItem);
    JoinConcat(SeqUtil.Map(a, RenderItem), SeqUtil.Map(b, RenderItem), "\n");
  }

  /** Two text items are their texts with a newline between. */
  lemma FormatTwoTexts(x: string, y: string)
    ensures FormatResultContent([Text(x), Text(y)]) == x + "\n" + y
  {
    FormatConcat([Text(x)], [Text(y)]);
    FormatSingle(Text(x));
    FormatSingle(Text(y));
    assert [Text(x)] + [Text(y)] == [Text(x), Text(y)];
  }

  /** A resource with text shows the uri in brackets, then a colon and the text. */
  lemma ResourceWithText(uri: string, text: string)
    ensures FormatResultContent([Resource(McpResource(uri, None, Some(text), None))]) == "[Resource " + uri + "]: " + text
  {
    FormatSingle(Resource(McpResource(uri, None, Some(text), None)));
  }

  /** The `McpError` to `ToolError` mapping: the two "not found" errors stay "not found", everything else is an execution error. */
  function ToolErrorOf(e: McpError): (r: ToolError)
    ensures r.NotFound? <==> e.ServerNotFound? || e.ToolNotFound?
    ensures r.InvalidArguments? == false
    ensures e.ServerNotFound? ==> r.message == "MCP server '" + e.message + "' not found"
    ensures e.ToolNotFound? ==> r.message == "Tool '" + e.message + "' not found"
    ensures r.Execution? ==> StartsWith(r.message, "MCP error: ")
  {
    match e
    case ServerNotFound(id) => NotFound("MCP server '" + id + "' not found")
    case ToolNotFound(name) => NotFound("Tool '" + name + "' not found")
    case _ =>
      StartsWithAppend("MCP error: ", Display(e));
      Execution("MCP error: " + Display(e))
  }

  /** An execution error still names the MCP error it came from: its display text reads back as that error. */
  lemma ExecutionErrorKeepsCause(e: McpError)
    requires !e.ServerNotFound? && !e.ToolNotFound?
    ensures ToolErrorOf(e).Execution?
    ensures ParseDisplay(ToolErrorOf(e).message[|"MCP error: "|..]) == Some(e)
  {
    var m := ToolErrorOf(e).message;
    assert m == "MCP error: " + Display(e);
    assert m[|"MCP error: "|..] == Display(e);
    ParseDisplayRoundTrip(e);
  }

  /** A manager result as a tool result: the server's `is_error` decides success; the text is the same either way. */
  function ToolResultOf(result: McpCallResult): (r: ToolResult)
    ensures r.success <==> !result.isError
    ensures r.result == FormatResultContent(result.content) && r.displayPreference.None?
  {
    ToolResult(!result.isError, FormatResultContent(result.content), None)
  }

  /**
   * `McpToolExecutor::execute`. `lookup` is the alias index, `parse` reads
   * the arguments (`serdeMessage` is its error text), and `callTool` is the
   * manager's `call_tool` on a server id, an original tool name and the
   * arguments.
   */
  function Execute(call: ToolCall, lookup: string -> Option<ToolAlias>, parse: Parser, serdeMessage: string,
                   callTool: (string, string, Json) -> Result<McpCallResult, McpError>): (r: Result<ToolResult, ToolError>)
    ensures lookup(call.fn.name).None? ==> r == Err(NotFound("MCP tool '" + call.fn.name + "' not found"))
    ensures lookup(call.fn.name).Some? && parse(call.fn.arguments).None? ==>
              r == Err(InvalidArguments("Invalid JSON: " + serdeMessage))
    ensures r.Ok? <==> && lookup(call.fn.name).Some? && parse(call.fn.arguments).Some?
                       && callTool(lookup(call.fn.name).value.serverId, lookup(call.fn.name).value.originalName,
                                   parse(call.fn.arguments).value).Ok?
    ensures r.Ok? ==> r.value == ToolResultOf(callTool(lookup(call.fn.name).value.serverId,
                                                       lookup(call.fn.name).value.originalName,
                                                       parse(call.fn.arguments).value).value)
    ensures lookup(call.fn.name).Some? && parse(call.fn.arguments).Some? ==>
              var o := callTool(lookup(call.fn.name).value.serverId, lookup(call.fn.name).value.originalName,
                                parse(call.fn.arguments).value);
              o.Err? ==> r == Err(ToolErrorOf(o.error))
  {
    match lookup(call.fn.name)
    case None => Err(NotFound("MCP tool '" + call.fn.name + "' not found"))
    case Some(alias) =>
      match parse(call.fn.arguments)
      case None => Err(InvalidArguments("Invalid JSON: " + serdeMessage))
      case Some(args) =>
        match callTool(alias.serverId, alias.originalName, args)
        case Ok(result) => Ok(ToolResultOf(result))
        case Err(e) => Err(ToolErrorOf(e))
  }

  /** An unknown alias is reported before the arguments are looked at, and the manager is not asked. */
  lemma UnknownAliasFirst(call: ToolCall, lookup: string -> Option<ToolAlias>, p1: Parser, p2: Parser, m1: string, m2: string,
                          c1: (string, string, Json) -> Result<McpCallResult, McpError>,
                          c2: (string, string, Json) -> Result<McpCallResult, McpError>)
    requires lookup(call.fn.name).None?
    ensures Execute(call, lookup, p1, m1, c1) == Execute(call, lookup, p2, m2, c2)
    ensures Execute(call, lookup, p1, m1, c1).Err? && Execute(call, lookup, p1, m1, c1).error.NotFound?
  {
  }

  /**
   * `McpToolExecutor::list_tools`: one schema per alias whose tool the
   * manager knows, under the alias's name; other aliases are dropped.
   */
  function ListTools(aliases: seq<ToolAlias>, toolInfo: (string, string) -> Option<McpTool>): (r: seq<ToolSchema>)
    ensures |r| <= |aliases|
    ensures forall s :: s in r ==> s.schemaType == "function"
    ensures forall s :: s in r ==> exists i :: 0 <= i < |aliases| && Announces(aliases[i], toolInfo, s)
    ensures forall i :: 0 <= i < |aliases| && toolInfo(aliases[i].serverId, aliases[i].originalName).Some? ==>
              SchemaOf(aliases[i], toolInfo(aliases[i].serverId, aliases[i].originalName)).value in r
    ensures (forall i :: 0 <= i < |aliases| ==> toolInfo(aliases[i].serverId, aliases[i].originalName).Some?) ==>
              |r| == |aliases| && forall i :: 0 <= i < |aliases| ==> r[i].fn.name == aliases[i].alias
  {
    var f := (a: ToolAlias) => SchemaOf(a, toolInfo(a.serverId, a.originalName));
    var r := SeqUtil.FilterMap(aliases, f);
    forall s | s in r
      ensures s.schemaType == "function" && exists i :: 0 <= i < |aliases| && Announces(aliases[i], toolInfo, s)
    {
      var i :| 0 <= i < |aliases| && f(aliases[i]) == Some(s);
      assert Announces(aliases[i], toolInfo, s);
    }
    forall i | 0 <= i < |aliases| && toolInfo(aliases[i].serverId, aliases[i].originalName).Some?
      ensures SchemaOf(aliases[i], toolInfo(aliases[i].serverId, aliases[i].originalName)).value in r
    {
      SeqUtil.FilterMapKeeps(aliases, f, i);
    }
    r
  }

  /**
   * The order of the list: the schemas of earlier aliases come before those
   * of later ones, an alias without tool info contributing nothing.
   */
  lemma ListToolsSplit(aliases: seq<ToolAlias>, k: nat, toolInfo: (string, string) -> Option<McpTool>)
    requires k <= |aliases|
    ensures ListTools(aliases, toolInfo) == ListTools(aliases[..k], toolInfo) + ListTools(aliases[k..], toolInfo)
  {
    var f := (a: ToolAlias) => SchemaOf(a, toolInfo(a.serverId, a.originalName));
    assert aliases == aliases[..k] + aliases[k..];
    SeqUtil.FilterMapAppend(aliases[..k], aliases[k..], f);
  }

  /** An alias with no tool info contributes nothing; one with tool info contributes exactly its schema. */
  lemma ListToolsOne(a: ToolAlias, toolInfo: (string, string) -> Option<McpTool>)
    ensures toolInfo(a.serverId, a.originalName).None? ==> ListTools([a], toolInfo) == []
    ensures toolInfo(a.serverId, a.originalName).Some? ==>
              ListTools([a], toolInfo) == [SchemaOf(a, toolInfo(a.serverId, a.originalName)).value]
  {
    var f := (a: ToolAlias) => SchemaOf(a, toolInfo(a.serverId, a.originalName));
    assert [a][1..] == [];
    assert SeqUtil.FilterMap([a][1..], f) == [];
  }

  /** `s` is the schema announced for alias `a`: the alias's name, and the description and parameters of its tool. */
  predicate Announces(a: ToolAlias, toolInfo: (string, string) -> Option<McpTool>, s: ToolSchema)
  {
    var info := toolInfo(a.serverId, a.originalName);
    info.Some? && s == ToolSchema("function", FunctionSchema(a.alias, info.value.description, info.value.parameters))
  }

  /** The schema of an alias, when its tool is known. */
  function SchemaOf(a: ToolAlias, info: Option<McpTool>): (r: Option<ToolSchema>)
    ensures r.Some? <==> info.Some?
    ensures r.Some? ==> r.value == ToolSchema("function", FunctionSchema(a.alias, info.value.description, info.value.parameters))
  {
    match info
    case None => None
    case Some(t) => Some(ToolSchema("function", FunctionSchema(a.alias, t.description, t.parameters)))
  }

  /** An executor, as the composite sees it. */
  type Executor = ToolCall -> Result<ToolResult, ToolError>

  /** `CompositeToolExecutor::execute`: the built-in executor first; only its `NotFound` passes the call on to MCP. */
  function CompositeExecute(call: ToolCall, builtin: Executor, mcp: Executor): (r: Result<ToolResult, ToolError>)
    ensures builtin(call).Ok? ==> r == builtin(call)
    ensures builtin(call).Err? && builtin(call).error.NotFound? ==> r == mcp(call)
    ensures r != builtin(call) ==> builtin(call).Err? && builtin(call).error.NotFound?
  {
    match builtin(call)
    case Ok(result) => Ok(result)
    case Err(NotFound(_)) => mcp(call)
    case Err(e) => Err(e)
  }

  /** The composite as an executor itself. */
  function Composite(builtin: Executor, mcp: Executor): Executor
  {
    (call: ToolCall) => CompositeExecute(call, builtin, mcp)
  }

  /** Stacking composites: which way they are nested makes no difference to any call. */
  lemma CompositeAssociative(call: ToolCall, a: Executor, b: Executor, c: Executor)
    ensures CompositeExecute(call, Composite(a, b), c) == CompositeExecute(call, a, Composite(b, c))
  {
  }

  /** An executor that knows no tool leaves the other's answers as they are, on either side. */
  lemma NothingFoundIsNeutral(call: ToolCall, e: Executor, none: Executor)
    requires none(call).Err? && none(call).error.NotFound?
    ensures CompositeExecute(call, none, e) == e(call)
    ensures e(call).Err? && e(call).error.NotFound? ==> CompositeExecute(call, e, none) == none(call)
    ensures !(e(call).Err? && e(call).error.NotFound?) ==> CompositeExecute(call, e, none) == e(call)
  {
  }

  /** `CompositeToolExecutor::list_tools`: the built-in tools, then the MCP tools. */
  function CompositeListTools(builtin: seq<ToolSchema>, mcp: seq<ToolSchema>): (r: seq<ToolSchema>)
    ensures |r| == |builtin| + |mcp| && r[..|builtin|] == builtin && r[|builtin|..] == mcp
  {
    builtin + mcp
  }
}
