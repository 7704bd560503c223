// The plain data of the MCP client (crates/agent-mcp/src/types.rs): a
// server's status and its lowercase name, the runtime record of a server,
// the content items of a tool result and their JSON form, tool metadata,
// aliases and the events the manager emits. Timestamps are instants of an
// abstract clock (`int`).
module McpTypes {
  import opened Wrappers
  import opened JsonValue
  import opened Serde
  import SeqUtil

  datatype ServerStatus = Connecting | Ready | Degraded | Stopped | Error

  /** The lowercase name, used both by `Display` and by serde (`rename_all = "lowercase"`). */
  function StatusName(s: ServerStatus): (name: string)
    ensures name != [] && forall i :: 0 <= i < |name| ==> 'a' <= name[i] <= 'z'
  {
    match s
    case Connecting => "connecting"
    case Ready => "ready"
    case Degraded => "degraded"
    case Stopped => "stopped"
    case Error => "error"
  }

  /** Deserialising a status: exactly the five lowercase names are accepted. */
  function ParseStatus(name: string): (r: Option<ServerStatus>)
    ensures r.Some? ==> StatusName(r.value) == name
  {
    if name == "connecting" then Some(Connecting)
    else if name == "ready" then Some(Ready)
    else if name == "degraded" then Some(Degraded)
    else if name == "stopped" then Some(Stopped)
    else if name == "error" then Some(Error)
    else None
  }

  /** Every status reads back from its name, so no two statuses share a name. */
  lemma StatusNameRoundTrip(s: ServerStatus)
    ensures ParseStatus(StatusName(s)) == Some(s)
  {
  }

  lemma StatusNameInjective(a: ServerStatus, b: ServerStatus)
    ensures StatusName(a) == StatusName(b) <==> a == b
  {
    StatusNameRoundTrip(a);
    StatusNameRoundTrip(b);
  }

  /** A status serialises as the JSON string of its name (`"ready"` for `Ready`). */
  function EncodeStatus(s: ServerStatus): (v: Json)
    ensures v.Str? && ParseStatus(v.s) == Some(s)
  {
    StatusNameRoundTrip(s);
    Str(StatusName(s))
  }

  function DecodeStatus(v: Json): (r: Option<ServerStatus>)
    ensures r.Some? ==> v == EncodeStatus(r.value)
  {
    if v.Str? then ParseStatus(v.s) else None
  }

  lemma StatusJsonRoundTrip(s: ServerStatus)
    ensures DecodeStatus(EncodeStatus(s)) == Some(s)
  {
    StatusNameRoundTrip(s);
  }

  /** What the manager knows about one server. */
  datatype RuntimeInfo = RuntimeInfo(
    status: ServerStatus,
    lastError: Option<string>,
    connectedAt: Option<int>,
    disconnectedAt: Option<int>,
    toolCount: nat,
    restartCount: nat,
    lastPingAt: Option<int>)

  /** `RuntimeInfo::default`: stopped, no error, no timestamps, both counters zero. */
  function DefaultRuntimeInfo(): (r: RuntimeInfo)
    ensures r.status == Stopped && r.lastError.None?
    ensures r.connectedAt.None? && r.disconnectedAt.None? && r.lastPingAt.None?
    ensures r.toolCount == 0 && r.restartCount == 0
  {
    RuntimeInfo(Stopped, None, None, None, 0, 0, None)
  }

  datatype McpResource = McpResource(uri: string, mimeType: Option<string>, text: Option<string>, blob: Option<string>)

  datatype McpContentItem =
    | Text(text: string)
    | Image(data: string, mimeType: string)
    | Resource(resource: McpResource)

  /** An object holding `k: s` when `o` is `Some(s)`, and nothing otherwise (`skip_serializing_if = "Option::is_none"`). */
  function WithOptStr(fields: map<string, Json>, k: string, o: Option<string>): (r: map<string, Json>)
    ensures o.None? ==> r == fields
    ensures o.Some? ==> r == fields[k := Str(o.value)]
  {
    if o.Some? then fields[k := Str(o.value)] else fields
  }

  function EncodeResource(r: McpResource): (v: Json)
    ensures v.Obj? && "uri" in v.fields && v.fields["uri"] == Str(r.uri)
  {
    Obj(WithOptStr(WithOptStr(WithOptStr(map["uri" := Str(r.uri)], "mime_type", r.mimeType), "text", r.text), "blob", r.blob))
  }

  /** A resource needs a string `uri`; each optional field may be absent, `null` or a string. */
  function DecodeResource(v: Json): (r: Option<McpResource>)
    ensures r.Some? ==> ReqStr(v, "uri") == Some(r.value.uri)
    ensures r.Some? <==> && ReqStr(v, "uri").Some? && OptStr(v, "mime_type").Some?
                         && OptStr(v, "text").Some? && OptStr(v, "blob").Some?
  {
    match ReqStr(v, "uri")
    case None => None
    case Some(uri) =>
      match (OptStr(v, "mime_type"), OptStr(v, "text"), OptStr(v, "blob"))
      case (Some(m), Some(t), Some(b)) => Some(McpResource(uri, m, t, b))
      case _ => None
  }

  lemma ResourceRoundTrip(r: McpResource)
    ensures DecodeResource(EncodeResource(r)) == Some(r)
  {
    var v := EncodeResource(r);
    assert Get(v, "uri") == Some(Str(r.uri));
    assert r.mimeType.None? ==> Get(v, "mime_type").None?;
    assert r.mimeType.Some? ==> Get(v, "mime_type") == Some(Str(r.mimeType.value));
    assert r.text.None? ==> Get(v, "text").None?;
    assert r.text.Some? ==> Get(v, "text") == Some(Str(r.text.value));
    assert r.blob.None? ==> Get(v, "blob").None?;
    assert r.blob.Some? ==> Get(v, "blob") == Some(Str(r.blob.value));
  }

  /** The tag each variant carries in its `type` field. */
  function ContentTag(item: McpContentItem): string
  {
    match item
    case Text(_) => "text"
    case Image(_, _) => "image"
    case Resource(_) => "resource"
  }

  /** `#[serde(tag = "type")]`: the variant's fields next to its tag. */
  function EncodeContentItem(item: McpContentItem): (v: Json)
    ensures v.Obj? && "type" in v.fields && v.fields["type"] == Str(ContentTag(item))
  {
    match item
    case Text(t) => Obj(map["type" := Str("text"), "text" := Str(t)])
    case Image(d, m) => Obj(map["type" := Str("image"), "data" := Str(d), "mime_type" := Str(m)])
    case Resource(r) => Obj(map["type" := Str("resource"), "resource" := EncodeResource(r)])
  }

  /** Reads a content item by its tag; an unknown tag or a missing field is an error. */
  function DecodeContentItem(v: Json): (r: Option<McpContentItem>)
    ensures r.Some? ==> GetStr(v, "type") == Some(ContentTag(r.value))
    ensures GetStr(v, "type").None? ==> r.None?
  {
    match GetStr(v, "type")
    case None => None
    case Some(tag) =>
      if tag == "text" then
        match ReqStr(v, "text") case Some(t) => Some(Text(t)) case None => None
      else if tag == "image" then
        match (ReqStr(v, "data"), ReqStr(v, "mime_type"))
        case (Some(d), Some(m)) => Some(Image(d, m))
        case _ => None
      else if tag == "resource" then
        match Get(v, "resource")
        case Some(rv) => (match DecodeResource(rv) case Some(res) => Some(Resource(res)) case None => None)
        case None => None
      else None
  }

  lemma ContentItemRoundTrip(item: McpContentItem)
    ensures DecodeContentItem(EncodeContentItem(item)) == Some(item)
  {
    match item
    case Text(t) =>
    case Image(d, m) =>
    case Resource(r) => ResourceRoundTrip(r);
  }

  /** The result of a tool call as the manager hands it on. */
  datatype McpCallResult = McpCallResult(content: seq<McpContentItem>, isError: bool)

  /** `content` is required, and `is_error` is false when absent. */
  function DecodeCallResult(v: Json): (r: Option<McpCallResult>)
    ensures r.Some? ==> GetArr(v, "content").Some? && |r.value.content| == |GetArr(v, "content").value|
    ensures r.Some? && Absent(v, "is_error") ==> !r.value.isError
    ensures r.Some? ==> forall i :: 0 <= i < |r.value.content| ==>
              DecodeContentItem(GetArr(v, "content").value[i]) == Some(r.value.content[i])
  {
    match (GetArr(v, "content"), BoolOr(v, "is_error", false))
    case (Some(xs), Some(isError)) =>
      (match DecodeAll(xs, DecodeContentItem)
       case Some(items) => Some(McpCallResult(items, isError))
       case None => None)
    case _ => None
  }

  /** A call result without `is_error` is not an error. */
  lemma CallResultErrorDefault(items: seq<McpContentItem>)
    ensures var v := Obj(map["content" := Arr(SeqUtil.Map(items, EncodeContentItem))]);
            DecodeCallResult(v) == Some(McpCallResult(items, false))
  {
    forall i | 0 <= i < |items| ensures DecodeContentItem(EncodeContentItem(items[i])) == Some(items[i]) {
      ContentItemRoundTrip(items[i]);
    }
    DecodeAllEncoded(items, EncodeContentItem, DecodeContentItem);
  }

  /** Tool metadata as the manager keeps it: the input schema is `parameters`. */
  datatype McpTool = McpTool(name: string, description: string, parameters: Json)

  /** The name under which a server's tool is exposed, and where it comes from. */
  datatype ToolAlias = ToolAlias(alias: string, serverId: string, originalName: string)

  datatype McpEvent =
    | ServerStatusChanged(serverId: string, status: ServerStatus, error: Option<string>)
    | ToolsChanged(serverId: string, tools: seq<string>)
    | ToolExecuted(serverId: string, toolName: string, success: bool)

  function EventTag(e: McpEvent): string
  {
    match e
    case ServerStatusChanged(_, _, _) => "ServerStatusChanged"
    case ToolsChanged(_, _) => "ToolsChanged"
    case ToolExecuted(_, _, _) => "ToolExecuted"
  }

  /**
   * The serialised event: the variant's name under `type`, the server id,
   * the status by its lowercase name, and `error` only when there is one.
   */
  function EncodeEvent(e: McpEvent): (v: Json)
    ensures v.Obj? && GetStr(v, "type") == Some(EventTag(e)) && GetStr(v, "server_id") == Some(e.serverId)
    ensures e.ServerStatusChanged? ==> Get(v, "status") == Some(EncodeStatus(e.status))
    ensures e.ServerStatusChanged? ==> (Get(v, "error").Some? <==> e.error.Some?)
  {
    match e
    case ServerStatusChanged(id, status, error) =>
      Obj(WithOptStr(map["type" := Str("ServerStatusChanged"), "server_id" := Str(id), "status" := EncodeStatus(status)],
                     "error", error))
    case ToolsChanged(id, tools) =>
      Obj(map["type" := Str("ToolsChanged"), "server_id" := Str(id), "tools" := StrArray(tools)])
    case ToolExecuted(id, name, success) =>
      Obj(map["type" := Str("ToolExecuted"), "server_id" := Str(id), "tool_name" := Str(name), "success" := Bool(success)])
  }

  /** The `type` field tells the kind of event apart. */
  lemma EventTagDistinct(a: McpEvent, b: McpEvent)
    ensures GetStr(EncodeEvent(a), "type") == GetStr(EncodeEvent(b), "type") <==> EventTag(a) == EventTag(b)
    ensures EventTag(a) == EventTag(b) <==> (a.ServerStatusChanged? == b.ServerStatusChanged? && a.ToolsChanged? == b.ToolsChanged?)
  {
  }
}
