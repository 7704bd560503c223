// The JSON-RPC 2.0 and MCP message records of the protocol client
// (crates/agent-mcp/src/protocol/models.rs) with their JSON form as serde
// derives it: which keys are written, which may be absent, and what an
// absent key defaults to.
module McpModels {
  import opened Wrappers
  import opened JsonValue
  import opened Serde
  import opened McpTypes

  const I32_MIN: int := -0x8000_0000
  const I32_END: int := 0x8000_0000

  /** The MCP protocol revision the client announces. */
  const PROTOCOL_VERSION: string := "2024-11-05"

  /** The client name the client announces. */
  const CLIENT_NAME: string := "bamboo-agent"

  datatype JsonRpcRequest = JsonRpcRequest(jsonrpc: string, id: nat, methodName: string, params: Option<Json>)

  /** `JsonRpcRequest::new`: version "2.0", the rest as given. */
  function NewRequest(id: nat, methodName: string, params: Option<Json>): (r: JsonRpcRequest)
    ensures r.jsonrpc == "2.0" && r.id == id && r.methodName == methodName && r.params == params
  {
    JsonRpcRequest("2.0", id, methodName, params)
  }

  /** The serialised request; `params` is left out when there are none. */
  function EncodeRequest(r: JsonRpcRequest): (v: Json)
    ensures v.Obj? && ("params" in v.fields <==> r.params.Some?)
    ensures GetStr(v, "jsonrpc") == Some(r.jsonrpc) && Get(v, "id") == Some(Num(r.id))
    ensures GetStr(v, "method") == Some(r.methodName)
  {
    Obj(WithOpt(map["jsonrpc" := Str(r.jsonrpc), "id" := Num(r.id), "method" := Str(r.methodName)], "params", r.params))
  }

  /** A request serde can read: an id that fits in a `u64`. */
  function DecodeRequest(v: Json): (r: Option<JsonRpcRequest>)
    ensures r.Some? ==> r.value.id < U64_LIMIT && GetStr(v, "method") == Some(r.value.methodName)
  {
    match (ReqStr(v, "jsonrpc"), ReqNat(v, "id", U64_LIMIT), ReqStr(v, "method"))
    case (Some(jsonrpc), Some(id), Some(methodName)) => Some(JsonRpcRequest(jsonrpc, id, methodName, OptValue(v, "params")))
    case _ => None
  }

  /** A request reads back from its JSON, as long as its id is a `u64` and its params are not `null`. */
  lemma RequestRoundTrip(r: JsonRpcRequest)
    requires r.id < U64_LIMIT
    requires r.params.None? || !r.params.value.Null?
    ensures DecodeRequest(EncodeRequest(r)) == Some(r)
  {
  }

  /** A request built with `new` and no params serialises with exactly the three keys. */
  lemma NewRequestWithoutParams(id: nat, methodName: string)
    ensures EncodeRequest(NewRequest(id, methodName, None)).fields.Keys == {"jsonrpc", "id", "method"}
    ensures GetStr(EncodeRequest(NewRequest(id, methodName, None)), "jsonrpc") == Some("2.0")
  {
  }

  datatype JsonRpcError = JsonRpcError(code: int, message: string, data: Option<Json>)

  datatype JsonRpcResponse = JsonRpcResponse(jsonrpc: string, id: nat, result: Option<Json>, error: Option<JsonRpcError>)

  function EncodeRpcError(e: JsonRpcError): (v: Json)
    ensures v.Obj? && Get(v, "code") == Some(Num(e.code)) && GetStr(v, "message") == Some(e.message)
  {
    Obj(WithOpt(map["code" := Num(e.code), "message" := Str(e.message)], "data", e.data))
  }

  /** An error object: an `i32` code and a message are required, `data` is optional. */
  function DecodeRpcError(v: Json): (r: Option<JsonRpcError>)
    ensures r.Some? ==> I32_MIN <= r.value.code < I32_END && Get(v, "code") == Some(Num(r.value.code))
    ensures r.Some? <==> ReqInt(v, "code", I32_MIN, I32_END).Some? && ReqStr(v, "message").Some?
  {
    match (ReqInt(v, "code", I32_MIN, I32_END), ReqStr(v, "message"))
    case (Some(code), Some(message)) => Some(JsonRpcError(code, message, OptValue(v, "data")))
    case _ => None
  }

  function EncodeResponse(r: JsonRpcResponse): (v: Json)
    ensures v.Obj? && ("result" in v.fields <==> r.result.Some?) && ("error" in v.fields <==> r.error.Some?)
  {
    var errorJson := if r.error.Some? then Some(EncodeRpcError(r.error.value)) else None;
    Obj(WithOpt(WithOpt(map["jsonrpc" := Str(r.jsonrpc), "id" := Num(r.id)], "result", r.result), "error", errorJson))
  }

  /**
   * A response: `jsonrpc` and a `u64` id are required; `result` and `error`
   * may each be absent or `null`. Keys it does not know are ignored, so a
   * request with an id also reads as a response.
   */
  function DecodeResponse(v: Json): (r: Option<JsonRpcResponse>)
    ensures r.Some? ==> r.value.id < U64_LIMIT && Get(v, "id") == Some(Num(r.value.id))
    ensures r.Some? ==> r.value.result == OptValue(v, "result")
    ensures r.Some? <==> && ReqStr(v, "jsonrpc").Some? && ReqNat(v, "id", U64_LIMIT).Some?
                         && OptWith(v, "error", DecodeRpcError).Some?
  {
    match (ReqStr(v, "jsonrpc"), ReqNat(v, "id", U64_LIMIT), OptWith(v, "error", DecodeRpcError))
    case (Some(jsonrpc), Some(id), Some(error)) => Some(JsonRpcResponse(jsonrpc, id, OptValue(v, "result"), error))
    case _ => None
  }

  /** Values serde writes and reads back unchanged: ids and codes in range, no `null` in an optional field. */
  predicate WellFormedResponse(r: JsonRpcResponse)
  {
    && r.id < U64_LIMIT
    && (r.result.None? || !r.result.value.Null?)
    && (r.error.Some? ==> I32_MIN <= r.error.value.code < I32_END
                          && (r.error.value.data.None? || !r.error.value.data.value.Null?))
  }

  lemma ResponseRoundTrip(r: JsonRpcResponse)
    requires WellFormedResponse(r)
    ensures DecodeResponse(EncodeResponse(r)) == Some(r)
  {
    var v := EncodeResponse(r);
    if r.error.Some? {
      assert Get(v, "error") == Some(EncodeRpcError(r.error.value));
      assert DecodeRpcError(EncodeRpcError(r.error.value)) == r.error;
    }
  }

  /** The error response of the JSON-RPC specification's example reads as code -32600. */
  lemma InvalidRequestResponse()
    ensures var v := Obj(map["jsonrpc" := Str("2.0"), "id" := Num(1),
                             "error" := Obj(map["code" := Num(-32600), "message" := Str("Invalid Request")])]);
            DecodeResponse(v) == Some(JsonRpcResponse("2.0", 1, None, Some(JsonRpcError(-32600, "Invalid Request", None))))
  {
  }

  datatype JsonRpcNotification = JsonRpcNotification(jsonrpc: string, methodName: string, params: Option<Json>)

  function EncodeNotification(n: JsonRpcNotification): (v: Json)
    ensures v.Obj? && !("id" in v.fields) && ("params" in v.fields <==> n.params.Some?)
  {
    Obj(WithOpt(map["jsonrpc" := Str(n.jsonrpc), "method" := Str(n.methodName)], "params", n.params))
  }

  /** A notification: `jsonrpc` and `method` are required, `params` is optional. */
  function DecodeNotification(v: Json): (r: Option<JsonRpcNotification>)
    ensures r.Some? <==> ReqStr(v, "jsonrpc").Some? && ReqStr(v, "method").Some?
    ensures r.Some? ==> r.value.methodName == GetStr(v, "method").value && r.value.params == OptValue(v, "params")
  {
    match (ReqStr(v, "jsonrpc"), ReqStr(v, "method"))
    case (Some(jsonrpc), Some(methodName)) => Some(JsonRpcNotification(jsonrpc, methodName, OptValue(v, "params")))
    case _ => None
  }

  lemma NotificationRoundTrip(n: JsonRpcNotification)
    requires n.params.None? || !n.params.value.Null?
    ensures DecodeNotification(EncodeNotification(n)) == Some(n)
    ensures DecodeResponse(EncodeNotification(n)).None?
  {
  }

  /** The notification the client sends once the server has answered `initialize`. */
  function InitializedNotification(): (n: JsonRpcNotification)
    ensures n.jsonrpc == "2.0" && n.params.None?
    ensures n.methodName == "notifications/" + "initialized"
  {
    JsonRpcNotification("2.0", "notifications/initialized", None)
  }

  datatype Implementation = Implementation(name: string, version: string)

  /** `ClientCapabilities`: two optional values, both absent by default. */
  datatype ClientCapabilities = ClientCapabilities(experimental: Option<Json>, sampling: Option<Json>)

  datatype McpInitializeRequest = McpInitializeRequest(
    protocolVersion: string, capabilities: ClientCapabilities, clientInfo: Implementation)

  /**
   * `McpInitializeRequest::default`: the protocol revision, no capabilities
   * and the client's name; `crateVersion` is the crate's version, fixed at
   * build time.
   */
  function DefaultInitializeRequest(crateVersion: string): (r: McpInitializeRequest)
    ensures r.protocolVersion == "2024-11-05" && r.clientInfo == Implementation("bamboo-agent", crateVersion)
    ensures r.capabilities.experimental.None? && r.capabilities.sampling.None?
  {
    McpInitializeRequest(PROTOCOL_VERSION, ClientCapabilities(None, None), Implementation(CLIENT_NAME, crateVersion))
  }

  function EncodeImplementation(i: Implementation): Json
  {
    Obj(map["name" := Str(i.name), "version" := Str(i.version)])
  }

  /** The `initialize` params: camelCase keys, absent capabilities left out. */
  function EncodeInitializeRequest(r: McpInitializeRequest): (v: Json)
    ensures v.Obj? && v.fields.Keys == {"protocolVersion", "capabilities", "clientInfo"}
    ensures GetStr(v, "protocolVersion") == Some(r.protocolVersion)
    ensures GetStr(Index(v, "clientInfo"), "name") == Some(r.clientInfo.name)
  {
    var caps := WithOpt(WithOpt(map[], "experimental", r.capabilities.experimental), "sampling", r.capabilities.sampling);
    Obj(map["protocolVersion" := Str(r.protocolVersion), "capabilities" := Obj(caps),
            "clientInfo" := EncodeImplementation(r.clientInfo)])
  }

  /** The default `initialize` params announce the revision and the client name, with an empty capabilities object. */
  lemma DefaultInitializeParams(crateVersion: string)
    ensures var v := EncodeInitializeRequest(DefaultInitializeRequest(crateVersion));
            && GetStr(v, "protocolVersion") == Some("2024-11-05")
            && Get(v, "capabilities") == Some(Obj(map[]))
            && GetStr(Index(v, "clientInfo"), "name") == Some("bamboo-agent")
  {
  }

  datatype PromptsCapability = PromptsCapability(listChanged: bool)
  datatype ResourcesCapability = ResourcesCapability(subscribe: bool, listChanged: bool)
  datatype ToolsCapability = ToolsCapability(listChanged: bool)

  datatype ServerCapabilities = ServerCapabilities(
    experimental: Option<Json>, logging: Option<Json>, prompts: Option<PromptsCapability>,
    resources: Option<ResourcesCapability>, tools: Option<ToolsCapability>)

  function DecodeImplementation(v: Json): (r: Option<Implementation>)
    ensures r.Some? <==> ReqStr(v, "name").Some? && ReqStr(v, "version").Some?
    ensures r.Some? ==> r.value.name == GetStr(v, "name").value && r.value.version == GetStr(v, "version").value
  {
    match (ReqStr(v, "name"), ReqStr(v, "version"))
    case (Some(name), Some(version)) => Some(Implementation(name, version))
    case _ => None
  }

  /** A capability object: `listChanged` carries no default, so it must be present. */
  function DecodePrompts(v: Json): (r: Option<PromptsCapability>)
    ensures r.Some? <==> GetBool(v, "listChanged").Some?
  {
    match GetBool(v, "listChanged") case Some(b) => Some(PromptsCapability(b)) case None => None
  }

  function DecodeResources(v: Json): (r: Option<ResourcesCapability>)
    ensures r.Some? <==> GetBool(v, "subscribe").Some? && GetBool(v, "listChanged").Some?
  {
    match (GetBool(v, "subscribe"), GetBool(v, "listChanged"))
    case (Some(s), Some(l)) => Some(ResourcesCapability(s, l))
    case _ => None
  }

  function DecodeTools(v: Json): (r: Option<ToolsCapability>)
    ensures r.Some? <==> GetBool(v, "listChanged").Some?
  {
    match GetBool(v, "listChanged") case Some(b) => Some(ToolsCapability(b)) case None => None
  }

  /**
   * The capabilities struct: the value must be an object; every capability
   * in it is optional, and one that is present must be well formed.
   */
  function DecodeServerCapabilities(v: Json): (r: Option<ServerCapabilities>)
    ensures !v.Obj? ==> r.None?
    ensures v == Obj(map[]) ==> r == Some(ServerCapabilities(None, None, None, None, None))
    ensures r.Some? <==>
              && v.Obj? && OptWith(v, "prompts", DecodePrompts).Some?
              && OptWith(v, "resources", DecodeResources).Some? && OptWith(v, "tools", DecodeTools).Some?
    ensures r.Some? ==>
              && r.value.experimental == OptValue(v, "experimental") && r.value.logging == OptValue(v, "logging")
              && OptWith(v, "prompts", DecodePrompts) == Some(r.value.prompts)
              && OptWith(v, "resources", DecodeResources) == Some(r.value.resources)
              && OptWith(v, "tools", DecodeTools) == Some(r.value.tools)
  {
    if !v.Obj? then None
    else match (OptWith(v, "prompts", DecodePrompts), OptWith(v, "resources", DecodeResources), OptWith(v, "tools", DecodeTools))
    case (Some(p), Some(res), Some(t)) => Some(ServerCapabilities(OptValue(v, "experimental"), OptValue(v, "logging"), p, res, t))
    case _ => None
  }

  datatype McpInitializeResult = McpInitializeResult(
    protocolVersion: string, capabilities: ServerCapabilities, serverInfo: Implementation, instructions: Option<string>)

  /** The `initialize` result: camelCase keys; `instructions` is optional. */
  function DecodeInitializeResult(v: Json): (r: Option<McpInitializeResult>)
    ensures r.Some? ==> GetStr(v, "protocolVersion") == Some(r.value.protocolVersion)
    ensures r.Some? ==> Get(v, "serverInfo").Some? && DecodeImplementation(Get(v, "serverInfo").value) == Some(r.value.serverInfo)
  {
    match (ReqStr(v, "protocolVersion"), Get(v, "capabilities"), Get(v, "serverInfo"), OptStr(v, "instructions"))
    case (Some(pv), Some(cv), Some(sv), Some(instructions)) =>
      (match (DecodeServerCapabilities(cv), DecodeImplementation(sv))
       case (Some(caps), Some(info)) => Some(McpInitializeResult(pv, caps, info, instructions))
       case _ => None)
    case _ => None
  }

  /** A minimal server answer: revision, empty capabilities and the server's name and version. */
  lemma MinimalInitializeResult(name: string, version: string)
    ensures var v := Obj(map["protocolVersion" := Str("2024-11-05"), "capabilities" := Obj(map[]),
                             "serverInfo" := Obj(map["name" := Str(name), "version" := Str(version)])]);
            DecodeInitializeResult(v) == Some(McpInitializeResult("2024-11-05", ServerCapabilities(None, None, None, None, None),
                                                                  Implementation(name, version), None))
  {
    var v := Obj(map["protocolVersion" := Str("2024-11-05"), "capabilities" := Obj(map[]),
                     "serverInfo" := Obj(map["name" := Str(name), "version" := Str(version)])]);
    assert Get(v, "capabilities") == Some(Obj(map[]));
    assert Get(v, "instructions").None?;
  }

  /** The capabilities are required: an answer carrying `"capabilities": null` is refused. */
  lemma NullCapabilitiesRefused(name: string, version: string)
    ensures var v := Obj(map["protocolVersion" := Str("2024-11-05"), "capabilities" := Null,
                             "serverInfo" := Obj(map["name" := Str(name), "version" := Str(version)])]);
            DecodeInitializeResult(v) == None
  {
    var v := Obj(map["protocolVersion" := Str("2024-11-05"), "capabilities" := Null,
                     "serverInfo" := Obj(map["name" := Str(name), "version" := Str(version)])]);
    assert Get(v, "capabilities") == Some(Null);
  }

  /** One entry of the `tools/list` result. */
  datatype McpToolInfo = McpToolInfo(name: string, description: string, inputSchema: Option<Json>)

  /**
   * The tool entry as the struct declares it: without a rename the schema is
   * read from `input_schema`, and any other key (the `inputSchema` an MCP
   * server sends) is ignored.
   */
  function DecodeToolInfoAsWritten(v: Json): (r: Option<McpToolInfo>)
    ensures r.Some? <==> ReqStr(v, "name").Some? && ReqStr(v, "description").Some?
    ensures r.Some? ==> r.value.inputSchema == OptValue(v, "input_schema")
  {
    match (ReqStr(v, "name"), ReqStr(v, "description"))
    case (Some(name), Some(description)) => Some(McpToolInfo(name, description, OptValue(v, "input_schema")))
    case _ => None
  }

  /** The tool entry read with the MCP key for the schema, `inputSchema`. */
  function DecodeToolInfo(v: Json): (r: Option<McpToolInfo>)
    ensures r.Some? <==> ReqStr(v, "name").Some? && ReqStr(v, "description").Some?
    ensures r.Some? ==> r.value.inputSchema == OptValue(v, "inputSchema")
  {
    match (ReqStr(v, "name"), ReqStr(v, "description"))
    case (Some(name), Some(description)) => Some(McpToolInfo(name, description, OptValue(v, "inputSchema")))
    case _ => None
  }

  /** A tool entry as an MCP server writes it. */
  function WireToolInfo(name: string, description: string, schema: Json): Json
  {
    Obj(map["name" := Str(name), "description" := Str(description), "inputSchema" := schema])
  }

  /** The schema an MCP server sends is lost by the declared struct and kept by the corrected reader. */
  lemma ToolInfoSchemaLost(name: string, description: string, schema: Json)
    requires !schema.Null?
    ensures DecodeToolInfoAsWritten(WireToolInfo(name, description, schema)) == Some(McpToolInfo(name, description, None))
    ensures DecodeToolInfo(WireToolInfo(name, description, schema)) == Some(McpToolInfo(name, description, Some(schema)))
  {
    var v := WireToolInfo(name, description, schema);
    assert Get(v, "input_schema").None?;
    assert Get(v, "inputSchema") == Some(schema);
  }

  /** `{"tools": [...]}`: every entry must read. */
  function DecodeToolList(v: Json): (r: Option<seq<McpToolInfo>>)
    ensures r.Some? ==> GetArr(v, "tools").Some? && |r.value| == |GetArr(v, "tools").value|
    ensures r.Some? ==> forall i :: 0 <= i < |r.value| ==> DecodeToolInfo(GetArr(v, "tools").value[i]) == Some(r.value[i])
  {
    match GetArr(v, "tools")
    case Some(xs) => DecodeAll(xs, DecodeToolInfo)
    case None => None
  }

  datatype McpToolCallRequest = McpToolCallRequest(name: string, arguments: Option<Json>)

  /** The `tools/call` params: `arguments` is left out when there are none. */
  function EncodeToolCallRequest(r: McpToolCallRequest): (v: Json)
    ensures v.Obj? && GetStr(v, "name") == Some(r.name) && ("arguments" in v.fields <==> r.arguments.Some?)
    ensures r.arguments.Some? ==> Get(v, "arguments") == r.arguments
  {
    Obj(WithOpt(map["name" := Str(r.name)], "arguments", r.arguments))
  }

  /** The `tools/call` result: camelCase, so the flag is `isError`, false when absent. */
  function DecodeToolCallResult(v: Json): (r: Option<McpCallResult>)
    ensures r.Some? ==> GetArr(v, "content").Some? && |r.value.content| == |GetArr(v, "content").value|
    ensures r.Some? ==> forall i :: 0 <= i < |r.value.content| ==>
              DecodeContentItem(GetArr(v, "content").value[i]) == Some(r.value.content[i])
    ensures r.Some? && Absent(v, "isError") ==> !r.value.isError
    ensures r.Some? && !Absent(v, "isError") ==> Get(v, "isError") == Some(Bool(r.value.isError))
  {
    match (GetArr(v, "content"), BoolOr(v, "isError", false))
    case (Some(xs), Some(isError)) =>
      (match DecodeAll(xs, DecodeContentItem)
       case Some(items) => Some(McpCallResult(items, isError))
       case None => None)
    case _ => None
  }

  /** A result without content items and without `isError` is an empty success. */
  lemma EmptyToolCallResult()
    ensures DecodeToolCallResult(Obj(map["content" := Arr([])])) == Some(McpCallResult([], false))
  {
  }
}
