// The MCP server configuration (crates/agent-mcp/src/config.rs): the
// records, their defaults, and how serde reads them from JSON, where an
// absent key takes its default and a present key of the wrong type (or an
// integer out of range) is an error.
module McpConfigs {
  import opened Wrappers
  import opened JsonValue
  import opened Serde
  import SeqUtil

  const DEFAULT_VERSION: nat := 1
  const DEFAULT_REQUEST_TIMEOUT_MS: nat := 60000
  const DEFAULT_HEALTHCHECK_INTERVAL_MS: nat := 30000
  const DEFAULT_STARTUP_TIMEOUT_MS: nat := 20000
  const DEFAULT_CONNECT_TIMEOUT_MS: nat := 10000
  const DEFAULT_INITIAL_BACKOFF_MS: nat := 1000
  const DEFAULT_MAX_BACKOFF_MS: nat := 30000

  datatype ReconnectConfig = ReconnectConfig(enabled: bool, initialBackoffMs: nat, maxBackoffMs: nat, maxAttempts: nat)

  /** `ReconnectConfig::default`: enabled, 1 s initial backoff, 30 s cap, no attempt limit. */
  function DefaultReconnect(): (r: ReconnectConfig)
    ensures r.enabled && r.initialBackoffMs == 1000 && r.maxBackoffMs == 30000 && r.maxAttempts == 0
  {
    ReconnectConfig(true, DEFAULT_INITIAL_BACKOFF_MS, DEFAULT_MAX_BACKOFF_MS, 0)
  }

  /** `max_attempts == 0` means attempts are not limited. */
  predicate Unlimited(c: ReconnectConfig)
  {
    c.maxAttempts == 0
  }

  function DecodeReconnect(v: Json): (r: Option<ReconnectConfig>)
    ensures r.Some? ==> v.Obj? && r.value.initialBackoffMs < U64_LIMIT && r.value.maxBackoffMs < U64_LIMIT
    ensures r.Some? ==> r.value.maxAttempts < U32_LIMIT
    ensures r.Some? && Absent(v, "max_attempts") ==> Unlimited(r.value)
    ensures r.Some? && Absent(v, "enabled") ==> r.value.enabled
  {
    if !v.Obj? then None
    else
      match (BoolOr(v, "enabled", true), NatOr(v, "initial_backoff_ms", DEFAULT_INITIAL_BACKOFF_MS, U64_LIMIT),
             NatOr(v, "max_backoff_ms", DEFAULT_MAX_BACKOFF_MS, U64_LIMIT), NatOr(v, "max_attempts", 0, U32_LIMIT))
      case (Some(e), Some(i), Some(m), Some(a)) => Some(ReconnectConfig(e, i, m, a))
      case _ => None
  }

  function EncodeReconnect(c: ReconnectConfig): Json
  {
    Obj(map["enabled" := Bool(c.enabled), "initial_backoff_ms" := Num(c.initialBackoffMs),
            "max_backoff_ms" := Num(c.maxBackoffMs), "max_attempts" := Num(c.maxAttempts)])
  }

  predicate ReconnectInRange(c: ReconnectConfig)
  {
    c.initialBackoffMs < U64_LIMIT && c.maxBackoffMs < U64_LIMIT && c.maxAttempts < U32_LIMIT
  }

  lemma ReconnectRoundTrip(c: ReconnectConfig)
    requires ReconnectInRange(c)
    ensures DecodeReconnect(EncodeReconnect(c)) == Some(c)
  {
  }

  /** The per-field defaults agree with `Default`: an empty object reads as the default. */
  lemma ReconnectFieldDefaultsAgree()
    ensures DecodeReconnect(Obj(map[])) == Some(DefaultReconnect())
  {
  }

  /** `{"enabled": false}` reads as a disabled policy that otherwise keeps the defaults. */
  lemma ReconnectDisabledOnly()
    ensures DecodeReconnect(Obj(map["enabled" := Bool(false)])) == Some(DefaultReconnect().(enabled := false))
  {
    var v := Obj(map["enabled" := Bool(false)]);
    assert Get(v, "enabled") == Some(Bool(false));
  }

  datatype StdioConfig = StdioConfig(
    command: string, args: seq<string>, cwd: Option<string>, env: map<string, string>, startupTimeoutMs: nat)

  datatype HeaderConfig = HeaderConfig(name: string, value: string)

  datatype SseConfig = SseConfig(url: string, headers: seq<HeaderConfig>, connectTimeoutMs: nat)

  datatype TransportConfig = Stdio(stdio: StdioConfig) | Sse(sse: SseConfig)

  /** The `env` map: absent is empty, otherwise an object of strings. */
  function EnvOr(v: Json, k: string): (r: Option<map<string, string>>)
    ensures Absent(v, k) ==> r == Some(map[])
    ensures !Absent(v, k) ==> r == DecodeStrMap(Get(v, k).value)
  {
    match Get(v, k)
    case None => Some(map[])
    case Some(x) => DecodeStrMap(x)
  }

  function DecodeStdio(v: Json): (r: Option<StdioConfig>)
    ensures r.Some? ==> ReqStr(v, "command") == Some(r.value.command) && r.value.startupTimeoutMs < U64_LIMIT
    ensures r.Some? && Absent(v, "args") ==> r.value.args == []
    ensures r.Some? && Absent(v, "cwd") ==> r.value.cwd.None?
    ensures r.Some? && Absent(v, "env") ==> r.value.env == map[]
    ensures r.Some? && Absent(v, "startup_timeout_ms") ==> r.value.startupTimeoutMs == 20000
  {
    match (ReqStr(v, "command"), StrListOr(v, "args"), OptStr(v, "cwd"), EnvOr(v, "env"),
           NatOr(v, "startup_timeout_ms", DEFAULT_STARTUP_TIMEOUT_MS, U64_LIMIT))
    case (Some(c), Some(a), Some(d), Some(e), Some(t)) => Some(StdioConfig(c, a, d, e, t))
    case _ => None
  }

  function DecodeHeader(v: Json): (r: Option<HeaderConfig>)
    ensures r.Some? <==> ReqStr(v, "name").Some? && ReqStr(v, "value").Some?
    ensures r.Some? ==> r.value == HeaderConfig(GetStr(v, "name").value, GetStr(v, "value").value)
  {
    match (ReqStr(v, "name"), ReqStr(v, "value"))
    case (Some(n), Some(x)) => Some(HeaderConfig(n, x))
    case _ => None
  }

  function HeadersOr(v: Json, k: string): (r: Option<seq<HeaderConfig>>)
    ensures Absent(v, k) ==> r == Some([])
    ensures Get(v, k).Some? && Get(v, k).value.Arr? ==> r == DecodeAll(Get(v, k).value.items, DecodeHeader)
  {
    match Get(v, k)
    case None => Some([])
    case Some(Arr(xs)) => DecodeAll(xs, DecodeHeader)
    case Some(_) => None
  }

  function DecodeSse(v: Json): (r: Option<SseConfig>)
    ensures r.Some? ==> ReqStr(v, "url") == Some(r.value.url) && r.value.connectTimeoutMs < U64_LIMIT
    ensures r.Some? && Absent(v, "headers") ==> r.value.headers == []
    ensures r.Some? && Absent(v, "connect_timeout_ms") ==> r.value.connectTimeoutMs == 10000
  {
    match (ReqStr(v, "url"), HeadersOr(v, "headers"), NatOr(v, "connect_timeout_ms", DEFAULT_CONNECT_TIMEOUT_MS, U64_LIMIT))
    case (Some(u), Some(h), Some(t)) => Some(SseConfig(u, h, t))
    case _ => None
  }

  /** `#[serde(tag = "type", rename_all = "lowercase")]`: `"stdio"` or `"sse"` next to the variant's fields. */
  function DecodeTransport(v: Json): (r: Option<TransportConfig>)
    ensures r.Some? && r.value.Stdio? ==> GetStr(v, "type") == Some("stdio") && DecodeStdio(v) == Some(r.value.stdio)
    ensures r.Some? && r.value.Sse? ==> GetStr(v, "type") == Some("sse") && DecodeSse(v) == Some(r.value.sse)
    ensures GetStr(v, "type") != Some("stdio") && GetStr(v, "type") != Some("sse") ==> r.None?
  {
    match GetStr(v, "type")
    case Some(tag) =>
      if tag == "stdio" then (match DecodeStdio(v) case Some(c) => Some(Stdio(c)) case None => None)
      else if tag == "sse" then (match DecodeSse(v) case Some(c) => Some(Sse(c)) case None => None)
      else None
    case None => None
  }

  function EncodeHeader(h: HeaderConfig): Json
  {
    Obj(map["name" := Str(h.name), "value" := Str(h.value)])
  }

  function EncodeStdio(c: StdioConfig): (v: Json)
    ensures GetStr(v, "type") == Some("stdio")
  {
    Obj(WithOpt(map["type" := Str("stdio"), "command" := Str(c.command), "args" := StrArray(c.args),
                    "env" := EncodeStrMap(c.env), "startup_timeout_ms" := Num(c.startupTimeoutMs)],
                "cwd", if c.cwd.Some? then Some(Str(c.cwd.value)) else None))
  }

  function EncodeSse(c: SseConfig): (v: Json)
    ensures GetStr(v, "type") == Some("sse")
  {
    Obj(map["type" := Str("sse"), "url" := Str(c.url), "headers" := Arr(SeqUtil.Map(c.headers, EncodeHeader)),
            "connect_timeout_ms" := Num(c.connectTimeoutMs)])
  }

  function EncodeTransport(t: TransportConfig): (v: Json)
  {
    match t
    case Stdio(c) => EncodeStdio(c)
    case Sse(c) => EncodeSse(c)
  }

  predicate TransportInRange(t: TransportConfig)
  {
    match t
    case Stdio(c) => c.startupTimeoutMs < U64_LIMIT
    case Sse(c) => c.connectTimeoutMs < U64_LIMIT
  }

  lemma StdioRoundTrip(c: StdioConfig)
    requires c.startupTimeoutMs < U64_LIMIT
    ensures DecodeStdio(EncodeStdio(c)) == Some(c)
  {
    var v := EncodeStdio(c);
    DecodeStrArray(c.args);
    assert Get(v, "command") == Some(Str(c.command));
    assert StrListOr(v, "args") == Some(c.args);
    assert EnvOr(v, "env") == Some(c.env);
    assert OptStr(v, "cwd") == Some(c.cwd);
    assert Get(v, "startup_timeout_ms") == Some(Num(c.startupTimeoutMs));
  }

  lemma SseRoundTrip(c: SseConfig)
    requires c.connectTimeoutMs < U64_LIMIT
    ensures DecodeSse(EncodeSse(c)) == Some(c)
  {
    var v := EncodeSse(c);
    DecodeAllEncoded(c.headers, EncodeHeader, DecodeHeader);
    assert HeadersOr(v, "headers") == Some(c.headers);
  }

  lemma TransportRoundTrip(t: TransportConfig)
    requires TransportInRange(t)
    ensures DecodeTransport(EncodeTransport(t)) == Some(t)
  {
    match t
    case Stdio(c) => StdioRoundTrip(c);
    case Sse(c) => SseRoundTrip(c);
  }

  datatype McpServerConfig = McpServerConfig(
    id: string,
    name: Option<string>,
    enabled: bool,
    transport: TransportConfig,
    requestTimeoutMs: nat,
    healthcheckIntervalMs: nat,
    reconnect: ReconnectConfig,
    allowedTools: seq<string>,
    deniedTools: seq<string>)

  /** `reconnect`: absent is `ReconnectConfig::default`. */
  function ReconnectOr(v: Json, k: string): (r: Option<ReconnectConfig>)
    ensures Absent(v, k) ==> r == Some(DefaultReconnect())
    ensures !Absent(v, k) ==> r == DecodeReconnect(Get(v, k).value)
  {
    match Get(v, k)
    case None => Some(DefaultReconnect())
    case Some(x) => DecodeReconnect(x)
  }

  /**
   * A server entry: `id` and `transport` are required; enabled, the two
   * timings, the reconnect policy and both tool lists have defaults.
   */
  function DecodeServer(v: Json): (r: Option<McpServerConfig>)
    ensures r.Some? ==> ReqStr(v, "id") == Some(r.value.id) && Get(v, "transport").Some?
    ensures r.Some? ==> DecodeTransport(Get(v, "transport").value) == Some(r.value.transport)
    ensures r.Some? && Absent(v, "enabled") ==> r.value.enabled
    ensures r.Some? && Absent(v, "request_timeout_ms") ==> r.value.requestTimeoutMs == 60000
    ensures r.Some? && Absent(v, "healthcheck_interval_ms") ==> r.value.healthcheckIntervalMs == 30000
    ensures r.Some? && Absent(v, "reconnect") ==> r.value.reconnect == DefaultReconnect()
    ensures r.Some? && Absent(v, "allowed_tools") ==> r.value.allowedTools == []
    ensures r.Some? && Absent(v, "denied_tools") ==> r.value.deniedTools == []
  {
    match (ReqStr(v, "id"), OptStr(v, "name"), BoolOr(v, "enabled", true), Get(v, "transport"))
    case (Some(id), Some(name), Some(enabled), Some(tv)) =>
      (match (DecodeTransport(tv), NatOr(v, "request_timeout_ms", DEFAULT_REQUEST_TIMEOUT_MS, U64_LIMIT),
              NatOr(v, "healthcheck_interval_ms", DEFAULT_HEALTHCHECK_INTERVAL_MS, U64_LIMIT), ReconnectOr(v, "reconnect"),
              StrListOr(v, "allowed_tools"), StrListOr(v, "denied_tools"))
       case (Some(t), Some(rt), Some(hi), Some(rc), Some(allowed), Some(denied)) =>
         Some(McpServerConfig(id, name, enabled, t, rt, hi, rc, allowed, denied))
       case _ => None)
    case _ => None
  }

  /** The keys every encoded server entry has. */
  function ServerBaseFields(c: McpServerConfig): map<string, Json>
  {
    map["id" := Str(c.id), "enabled" := Bool(c.enabled), "transport" := EncodeTransport(c.transport),
        "request_timeout_ms" := Num(c.requestTimeoutMs), "healthcheck_interval_ms" := Num(c.healthcheckIntervalMs),
        "reconnect" := EncodeReconnect(c.reconnect), "allowed_tools" := StrArray(c.allowedTools),
        "denied_tools" := StrArray(c.deniedTools)]
  }

  function EncodeServer(c: McpServerConfig): (v: Json)
    ensures v.Obj? && ("name" in v.fields <==> c.name.Some?)
  {
    Obj(WithOpt(ServerBaseFields(c), "name", if c.name.Some? then Some(Str(c.name.value)) else None))
  }

  predicate ServerInRange(c: McpServerConfig)
  {
    && TransportInRange(c.transport) && ReconnectInRange(c.reconnect)
    && c.requestTimeoutMs < U64_LIMIT && c.healthcheckIntervalMs < U64_LIMIT
  }

  /** The base keys and what each holds; `name` is not among them. */
  lemma ServerBaseFieldsAt(c: McpServerConfig)
    ensures var b := ServerBaseFields(c);
            && "name" !in b
            && "id" in b && b["id"] == Str(c.id)
            && "enabled" in b && b["enabled"] == Bool(c.enabled)
            && "transport" in b && b["transport"] == EncodeTransport(c.transport)
            && "request_timeout_ms" in b && b["request_timeout_ms"] == Num(c.requestTimeoutMs)
            && "healthcheck_interval_ms" in b && b["healthcheck_interval_ms"] == Num(c.healthcheckIntervalMs)
            && "reconnect" in b && b["reconnect"] == EncodeReconnect(c.reconnect)
            && "allowed_tools" in b && b["allowed_tools"] == StrArray(c.allowedTools)
            && "denied_tools" in b && b["denied_tools"] == StrArray(c.deniedTools)
  {
    assert "transport"[0] != "reconnect"[0];
  }

  /** The keys of an encoded server entry and what each holds. */
  lemma EncodedServerFields(c: McpServerConfig)
    ensures var v := EncodeServer(c);
            && Get(v, "id") == Some(Str(c.id)) && Get(v, "enabled") == Some(Bool(c.enabled))
            && Get(v, "transport") == Some(EncodeTransport(c.transport))
            && Get(v, "request_timeout_ms") == Some(Num(c.requestTimeoutMs))
            && Get(v, "healthcheck_interval_ms") == Some(Num(c.healthcheckIntervalMs))
            && Get(v, "reconnect") == Some(EncodeReconnect(c.reconnect))
            && Get(v, "allowed_tools") == Some(StrArray(c.allowedTools))
            && Get(v, "denied_tools") == Some(StrArray(c.deniedTools))
            && OptStr(v, "name") == Some(c.name)
  {
    ServerBaseFieldsAt(c);
    var b := ServerBaseFields(c);
    var v := EncodeServer(c);
    if c.name.Some? {
      assert v.fields == b["name" := Str(c.name.value)];
    } else {
      assert v.fields == b;
    }
  }

  /** An entry whose every field reads as the corresponding part of `c` reads as `c`. */
  lemma DecodeServerFrom(v: Json, c: McpServerConfig)
    requires ReqStr(v, "id") == Some(c.id) && OptStr(v, "name") == Some(c.name)
    requires BoolOr(v, "enabled", true) == Some(c.enabled)
    requires Get(v, "transport").Some? && DecodeTransport(Get(v, "transport").value) == Some(c.transport)
    requires NatOr(v, "request_timeout_ms", DEFAULT_REQUEST_TIMEOUT_MS, U64_LIMIT) == Some(c.requestTimeoutMs)
    requires NatOr(v, "healthcheck_interval_ms", DEFAULT_HEALTHCHECK_INTERVAL_MS, U64_LIMIT) == Some(c.healthcheckIntervalMs)
    requires ReconnectOr(v, "reconnect") == Some(c.reconnect)
    requires StrListOr(v, "allowed_tools") == Some(c.allowedTools) && StrListOr(v, "denied_tools") == Some(c.deniedTools)
    ensures DecodeServer(v) == Some(c)
  {
  }

  lemma ServerRoundTrip(c: McpServerConfig)
    requires ServerInRange(c)
    ensures DecodeServer(EncodeServer(c)) == Some(c)
  {
    var v := EncodeServer(c);
    EncodedServerFields(c);
    TransportRoundTrip(c.transport);
    ReconnectRoundTrip(c.reconnect);
    DecodeStrArray(c.allowedTools);
    DecodeStrArray(c.deniedTools);
    assert StrListOr(v, "allowed_tools") == Some(c.allowedTools);
    assert StrListOr(v, "denied_tools") == Some(c.deniedTools);
    DecodeServerFrom(v, c);
  }

  /** The smallest entry, an id and a stdio command, takes every default. */
  lemma MinimalServerDefaults(id: string, command: string)
    ensures var v := Obj(map["id" := Str(id), "transport" := Obj(map["type" := Str("stdio"), "command" := Str(command)])]);
            DecodeServer(v) == Some(McpServerConfig(
              id, None, true, Stdio(StdioConfig(command, [], None, map[], 20000)),
              60000, 30000, DefaultReconnect(), [], []))
  {
    var tv := Obj(map["type" := Str("stdio"), "command" := Str(command)]);
    var v := Obj(map["id" := Str(id), "transport" := tv]);
    assert Get(v, "transport") == Some(tv);
    assert DecodeStdio(tv) == Some(StdioConfig(command, [], None, map[], 20000));
  }

  /** An entry with `"enabled": false` reads as disabled. */
  lemma DisabledServer(id: string, command: string)
    ensures var v := Obj(map["id" := Str(id), "enabled" := Bool(false),
                             "transport" := Obj(map["type" := Str("stdio"), "command" := Str(command)])]);
            DecodeServer(v).Some? && !DecodeServer(v).value.enabled
  {
    var tv := Obj(map["type" := Str("stdio"), "command" := Str(command)]);
    var v := Obj(map["id" := Str(id), "enabled" := Bool(false), "transport" := tv]);
    assert Get(v, "transport") == Some(tv);
    assert Get(v, "enabled") == Some(Bool(false));
    assert DecodeStdio(tv).Some?;
    assert OptStr(v, "name") == Some(None);
    assert NatOr(v, "request_timeout_ms", DEFAULT_REQUEST_TIMEOUT_MS, U64_LIMIT).Some?;
    assert NatOr(v, "healthcheck_interval_ms", DEFAULT_HEALTHCHECK_INTERVAL_MS, U64_LIMIT).Some?;
    assert ReconnectOr(v, "reconnect").Some?;
    assert StrListOr(v, "allowed_tools") == Some([]) && StrListOr(v, "denied_tools") == Some([]);
  }

  /** An SSE transport with only a URL has no headers and a 10 s connect timeout. */
  lemma MinimalSse(url: string)
    ensures DecodeTransport(Obj(map["type" := Str("sse"), "url" := Str(url)])) == Some(Sse(SseConfig(url, [], 10000)))
  {
  }

  datatype McpConfig = McpConfig(version: nat, servers: seq<McpServerConfig>)

  /** `McpConfig::default`: version 1 and no servers. */
  function DefaultConfig(): (r: McpConfig)
    ensures r.version == 1 && r.servers == []
  {
    McpConfig(DEFAULT_VERSION, [])
  }

  /** The root: `version` defaults to 1, `servers` to none; every server entry must read. */
  function DecodeConfig(v: Json): (r: Option<McpConfig>)
    ensures r.Some? && Absent(v, "version") ==> r.value.version == 1
    ensures r.Some? && Absent(v, "servers") ==> r.value.servers == []
    ensures r.Some? ==> r.value.version < U32_LIMIT
    ensures r.Some? && Get(v, "servers").Some? ==>
              Get(v, "servers").value.Arr? && |r.value.servers| == |Get(v, "servers").value.items|
              && forall i :: 0 <= i < |r.value.servers| ==> DecodeServer(Get(v, "servers").value.items[i]) == Some(r.value.servers[i])
  {
    if !v.Obj? then None
    else
      var servers := match Get(v, "servers") case None => Some([]) case Some(Arr(xs)) => DecodeAll(xs, DecodeServer) case Some(_) => None;
      match (NatOr(v, "version", DEFAULT_VERSION, U32_LIMIT), servers)
      case (Some(ver), Some(ss)) => Some(McpConfig(ver, ss))
      case _ => None
  }

  /** An empty object reads as the default configuration, and so does one with only an empty server list. */
  lemma ConfigFieldDefaultsAgree()
    ensures DecodeConfig(Obj(map[])) == Some(DefaultConfig())
    ensures DecodeConfig(Obj(map["servers" := Arr([])])) == Some(DefaultConfig())
  {
    var v := Obj(map["servers" := Arr([])]);
    assert Get(v, "servers") == Some(Arr([]));
  }

  function EncodeConfig(c: McpConfig): Json
  {
    Obj(map["version" := Num(c.version), "servers" := Arr(SeqUtil.Map(c.servers, EncodeServer))])
  }

  /** A server list in range reads back as itself. */
  lemma ServersRoundTrip(servers: seq<McpServerConfig>)
    requires forall i :: 0 <= i < |servers| ==> ServerInRange(servers[i])
    ensures DecodeAll(SeqUtil.Map(servers, EncodeServer), DecodeServer) == Some(servers)
  {
    forall i | 0 <= i < |servers| ensures DecodeServer(EncodeServer(servers[i])) == Some(servers[i]) {
      ServerRoundTrip(servers[i]);
    }
    DecodeAllEncoded(servers, EncodeServer, DecodeServer);
  }

  lemma ConfigRoundTrip(c: McpConfig)
    requires c.version < U32_LIMIT
    requires forall i :: 0 <= i < |c.servers| ==> ServerInRange(c.servers[i])
    ensures DecodeConfig(EncodeConfig(c)) == Some(c)
  {
    ServersRoundTrip(c.servers);
    var v := EncodeConfig(c);
    assert Get(v, "servers") == Some(Arr(SeqUtil.Map(c.servers, EncodeServer)));
    assert NatOr(v, "version", DEFAULT_VERSION, U32_LIMIT) == Some(c.version);
  }
}
