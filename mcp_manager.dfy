// The MCP server manager (crates/agent-mcp/src/manager.rs): the registry of
// running servers keyed by id, their runtime records, the tool index
// entries registered for each, the events emitted, one round of the health
// check and the reconnection loop. Tasks, locks and atomics are replaced by
// sequential updates of the registry; the network side (connecting,
// `initialize`, `tools/list`, `tools/call`, `ping`) is an input outcome, and
// the tool index's alias registration is a collaborator function.
module McpManager {
  import opened Wrappers
  import opened JsonValue
  import opened McpTypes
  import opened McpErrors
  import opened McpConfigs
  import opened McpReconnect
  import SeqUtil

  /** `ToolIndex::register_server_tools`: the aliases it registers for a server's tools under its allow and deny lists. */
  type Registrar = (string, seq<McpTool>, seq<string>, seq<string>) -> seq<ToolAlias>

  /** What the manager keeps per server. */
  datatype ServerRuntime = ServerRuntime(
    config: McpServerConfig, info: RuntimeInfo, tools: seq<McpTool>, shutdown: bool, reconnecting: bool)

  /** The record's tool count matches the tools it holds. */
  predicate CountMatches(rt: ServerRuntime)
  {
    rt.info.toolCount == |rt.tools|
  }

  /**
   * The runtime `start_server` creates after a successful handshake; the
   * clock is read twice, once for `connected_at` and once for `last_ping_at`.
   */
  function StartedRuntime(config: McpServerConfig, tools: seq<McpTool>, connectedAt: int, pingedAt: int): (rt: ServerRuntime)
    ensures CountMatches(rt) && rt.info.status == Ready && !rt.shutdown && !rt.reconnecting
    ensures rt.config == config && rt.tools == tools
    ensures rt.info.lastError.None? && rt.info.disconnectedAt.None? && rt.info.restartCount == 0
    ensures rt.info.connectedAt == Some(connectedAt) && rt.info.lastPingAt == Some(pingedAt)
  {
    ServerRuntime(config, RuntimeInfo(Ready, None, Some(connectedAt), None, |tools|, 0, Some(pingedAt)), tools, false, false)
  }

  /** What `stop_server` leaves in the runtime it removed. */
  function StoppedRuntime(rt: ServerRuntime, now: int): (r: ServerRuntime)
    ensures r.shutdown && r.info.status == Stopped && r.info.disconnectedAt == Some(now)
    ensures r.tools == rt.tools && r.config == rt.config && r.info.restartCount == rt.info.restartCount
  {
    rt.(shutdown := true, info := rt.info.(status := Stopped, disconnectedAt := Some(now)))
  }

  /** The names of registered aliases, as `ToolsChanged` lists them. */
  function AliasNames(aliases: seq<ToolAlias>): (r: seq<string>)
    ensures |r| == |aliases| && forall i :: 0 <= i < |aliases| ==> r[i] == aliases[i].alias
  {
    SeqUtil.Map(aliases, (a: ToolAlias) => a.alias)
  }

  /** `tools.iter().find(|t| t.name == name)` */
  function FindTool(tools: seq<McpTool>, name: string): (r: Option<McpTool>)
    ensures r.Some? ==> r.value in tools && r.value.name == name
    ensures r.None? <==> forall i :: 0 <= i < |tools| ==> tools[i].name != name
    ensures r.Some? ==> exists i :: 0 <= i < |tools| && tools[i] == r.value && forall j :: 0 <= j < i ==> tools[j].name != name
  {
    if tools == [] then None
    else if tools[0].name == name then Some(tools[0])
    else
      var r := FindTool(tools[1..], name);
      assert forall i :: 1 <= i < |tools| ==> tools[i] == tools[1..][i - 1];
      if r.Some? then
        var i :| 0 <= i < |tools[1..]| && tools[1..][i] == r.value && forall j :: 0 <= j < i ==> tools[1..][j].name != name;
        assert tools[i + 1] == r.value && forall j :: 0 <= j < i + 1 ==> tools[j].name != name;
        r
      else r
  }

  /**
   * One health check's effect on the record: a successful ping stamps
   * `last_ping_at` and brings a degraded server back to ready; a failed one
   * marks it degraded with the error's text.
   */
  function AfterPing(info: RuntimeInfo, ping: Result<(), McpError>, now: int): (r: RuntimeInfo)
    ensures ping.Ok? ==> r.lastPingAt == Some(now) && r.lastError == info.lastError
    ensures ping.Ok? ==> r.status == (if info.status == Degraded then Ready else info.status)
    ensures ping.Err? ==> r.status == Degraded && r.lastError == Some(Display(ping.error)) && r.lastPingAt == info.lastPingAt
    ensures r.toolCount == info.toolCount && r.restartCount == info.restartCount && r.connectedAt == info.connectedAt
  {
    match ping
    case Ok(_) => info.(lastPingAt := Some(now), status := if info.status == Degraded then Ready else info.status)
    case Err(e) => info.(status := Degraded, lastError := Some(Display(e)))
  }

  /** A failed ping's record tells the error back: its `last_error` reads as that error again. */
  lemma FailedPingKeepsError(info: RuntimeInfo, e: McpError, now: int)
    ensures AfterPing(info, Err(e), now).lastError.Some?
    ensures ParseDisplay(AfterPing(info, Err(e), now).lastError.value) == Some(e)
  {
    ParseDisplayRoundTrip(e);
  }

  /** The events one health check emits: only a change of status is announced. */
  function PingEvents(serverId: string, info: RuntimeInfo, ping: Result<(), McpError>): (r: seq<McpEvent>)
    ensures ping.Ok? && info.status != Degraded ==> r == []
    ensures |r| <= 1 && forall ev :: ev in r ==> ev.ServerStatusChanged? && ev.serverId == serverId
    ensures r != [] ==> r[0].status == AfterPing(info, ping, 0).status
  {
    match ping
    case Ok(_) => if info.status == Degraded then [ServerStatusChanged(serverId, Ready, None)] else []
    case Err(e) => [ServerStatusChanged(serverId, Degraded, Some(Display(e)))]
  }

  /** The runtime after a successful reconnect, as written: the tools are replaced but `tool_count` keeps its old value. */
  function RecoveredRuntimeAsWritten(rt: ServerRuntime, tools: seq<McpTool>): (r: ServerRuntime)
    ensures r.tools == tools && r.info.toolCount == rt.info.toolCount
  {
    rt.(tools := tools,
        info := rt.info.(status := Ready, lastError := None, restartCount := rt.info.restartCount + 1, disconnectedAt := None))
  }

  /** The runtime after a successful reconnect, with the tool count brought up to date as `start_server` and `refresh_tools` do. */
  function RecoveredRuntime(rt: ServerRuntime, tools: seq<McpTool>): (r: ServerRuntime)
    ensures CountMatches(r) && r.tools == tools
    ensures r.info.status == Ready && r.info.lastError.None? && r.info.disconnectedAt.None?
    ensures r.info.restartCount == rt.info.restartCount + 1
    ensures r.config == rt.config && r.shutdown == rt.shutdown && r.reconnecting == rt.reconnecting
  {
    RecoveredRuntimeAsWritten(rt, tools).(info := RecoveredRuntimeAsWritten(rt, tools).info.(toolCount := |tools|))
  }

  /** A server that comes back with a different number of tools: the record as written reports the old count. */
  lemma ToolCountStale(rt: ServerRuntime, tools: seq<McpTool>)
    requires CountMatches(rt) && |tools| != |rt.tools|
    ensures !CountMatches(RecoveredRuntimeAsWritten(rt, tools))
    ensures CountMatches(RecoveredRuntime(rt, tools))
  {
  }

  /** The record after a run that gave up. */
  function GaveUpInfo(info: RuntimeInfo, now: int): (r: RuntimeInfo)
    ensures r.status == Error && r.lastError == Some(MAX_ATTEMPTS_MESSAGE) && r.disconnectedAt == Some(now)
    ensures r.toolCount == info.toolCount && r.restartCount == info.restartCount
  {
    info.(status := Error, lastError := Some(MAX_ATTEMPTS_MESSAGE), disconnectedAt := Some(now))
  }

  /** `last_error` after `k` failed attempts: the text of the latest failure, or what it was before any. */
  function LastError(prior: Option<string>, outcomes: seq<Result<seq<McpTool>, McpError>>, k: nat): (r: Option<string>)
    requires k <= |outcomes| && (k > 0 ==> outcomes[k - 1].Err?)
    ensures k == 0 ==> r == prior
    ensures k > 0 ==> r.Some? && ParseDisplay(r.value) == Some(outcomes[k - 1].error)
  {
    if k == 0 then prior
    else
      ParseDisplayRoundTrip(outcomes[k - 1].error);
      Some(Display(outcomes[k - 1].error))
  }

  /** What `attempt_reconnection` returns for a run that ended with `e`. */
  function RunResult(serverId: string, e: Ending): (r: Result<(), McpError>)
    ensures r.Err? <==> e.GaveUp?
    ensures r.Err? ==> r.error == GiveUpError(serverId)
  {
    if e.GaveUp? then Err(GiveUpError(serverId)) else Ok(())
  }

  /** The runtime after a run that ended with `e`: a cancelled run leaves the latest failure recorded, a run that gave up marks the server failed, a recovered one installs the new tools. */
  function AfterRun(rt: ServerRuntime, outcomes: seq<Result<seq<McpTool>, McpError>>, e: Ending, now: int): (r: ServerRuntime)
    requires e.Cancelled? ==> e.attempts <= |outcomes| && (e.attempts > 0 ==> outcomes[e.attempts - 1].Err?)
    ensures CountMatches(rt) ==> CountMatches(r)
    ensures r.config == rt.config && r.shutdown == rt.shutdown && r.reconnecting == rt.reconnecting
    ensures e.Cancelled? ==> r == rt.(info := rt.info.(lastError := LastError(rt.info.lastError, outcomes, e.attempts)))
    ensures e.GaveUp? ==> r == rt.(info := GaveUpInfo(rt.info, now))
    ensures e.Recovered? ==> r == RecoveredRuntime(rt, e.tools)
  {
    match e
    case Cancelled(k) => rt.(info := rt.info.(lastError := LastError(rt.info.lastError, outcomes, k)))
    case GaveUp(_) => rt.(info := GaveUpInfo(rt.info, now))
    case Recovered(_, tools) => RecoveredRuntime(rt, tools)
    case Exhausted => rt
  }

  /** The events of a run that ended with `e`; `aliases` are the server's index entries afterwards. */
  function RunEvents(serverId: string, e: Ending, aliases: seq<ToolAlias>): (r: seq<McpEvent>)
    ensures e.Cancelled? ==> r == []
    ensures e.GaveUp? ==> r == [ServerStatusChanged(serverId, Error, Some(MAX_ATTEMPTS_MESSAGE))]
    ensures e.Recovered? ==> r == [ToolsChanged(serverId, AliasNames(aliases)), ServerStatusChanged(serverId, Ready, None)]
  {
    match e
    case Cancelled(_) => []
    case GaveUp(_) => [ServerStatusChanged(serverId, Error, Some(MAX_ATTEMPTS_MESSAGE))]
    case Recovered(_, _) => [ToolsChanged(serverId, AliasNames(aliases)), ServerStatusChanged(serverId, Ready, None)]
    case Exhausted => []
  }

  /**
   * The attempts of `attempt_reconnection`: before each one, shutdown is
   * checked, then the attempt limit; each failure records its error and
   * grows the backoff. Returns how the run ended, `last_error` at that
   * point, and the backoffs slept.
   */
  method RunAttempts(cfg: ReconnectConfig, outcomes: seq<Result<seq<McpTool>, McpError>>, cancelAt: Option<nat>,
                     prior: Option<string>)
    returns (ending: Ending, lastError: Option<string>, sleeps: seq<nat>)
    requires RunEnd(cfg, outcomes, cancelAt, 0) != Exhausted
    ensures ending == RunEnd(cfg, outcomes, cancelAt, 0) && !ending.Exhausted?
    ensures sleeps == Schedule(cfg.initialBackoffMs, cfg.maxBackoffMs, ending.attempts)
    ensures ending.Cancelled? ==> lastError == LastError(prior, outcomes, ending.attempts) && FailedBefore(outcomes, ending.attempts)
  {
    var backoff := cfg.initialBackoffMs;
    var attempt := 0;
    lastError := prior;
    sleeps := [];
    while true
      invariant FailedBefore(outcomes, attempt)
      invariant RunEnd(cfg, outcomes, cancelAt, attempt) == RunEnd(cfg, outcomes, cancelAt, 0)
      invariant backoff == Backoff(cfg.initialBackoffMs, cfg.maxBackoffMs, attempt)
      invariant sleeps == Schedule(cfg.initialBackoffMs, cfg.maxBackoffMs, attempt)
      invariant lastError == LastError(prior, outcomes, attempt)
      decreases |outcomes| - attempt
    {
      if cancelAt == Some(attempt) {
        return Cancelled(attempt), lastError, sleeps;
      }
      if cfg.maxAttempts > 0 && attempt >= cfg.maxAttempts {
        return GaveUp(attempt), lastError, sleeps;
      }
      assert attempt < |outcomes|;
      sleeps := sleeps + [backoff];
      match outcomes[attempt] {
        case Ok(tools) =>
          return Recovered(attempt + 1, tools), lastError, sleeps;
        case Err(e) =>
          RunEndStep(cfg, outcomes, cancelAt, attempt);
          assert sleeps == Schedule(cfg.initialBackoffMs, cfg.maxBackoffMs, attempt + 1);
          assert FailedBefore(outcomes, attempt + 1);
          lastError := Some(Display(e));
          backoff := NextBackoff(backoff, cfg.maxBackoffMs);
          attempt := attempt + 1;
      }
    }
  }

  /** What the health check does next. */
  datatype Tick = Stop | Continue | Reconnect

  /** The ids of the enabled servers of a configuration. */
  function EnabledIds(servers: seq<McpServerConfig>): set<string>
  {
    if servers == [] then {}
    else EnabledIds(servers[..|servers| - 1]) + (if servers[|servers| - 1].enabled then {servers[|servers| - 1].id} else {})
  }

  lemma EnabledIdsSnoc(servers: seq<McpServerConfig>, i: nat)
    requires i < |servers|
    ensures EnabledIds(servers[..i + 1]) == EnabledIds(servers[..i]) + (if servers[i].enabled then {servers[i].id} else {})
  {
    assert servers[..i + 1][..i] == servers[..i];
  }

  /** An id is among the enabled ids exactly when some enabled server has it. */
  lemma {:induction false} EnabledIdsMeaning(servers: seq<McpServerConfig>)
    ensures forall id :: id in EnabledIds(servers) <==> exists i :: 0 <= i < |servers| && servers[i].enabled && servers[i].id == id
  {
    if servers != [] {
      var init := servers[..|servers| - 1];
      EnabledIdsMeaning(init);
      assert forall i :: 0 <= i < |init| ==> init[i] == servers[i];
    }
  }

  /** The ids of the enabled servers whose handshake succeeds: those `initialize_from_config` registers. */
  ghost function StartableIds(servers: seq<McpServerConfig>, handshake: McpServerConfig -> Result<seq<McpTool>, McpError>)
    : set<string>
  {
    set i | 0 <= i < |servers| && servers[i].enabled && handshake(servers[i]).Ok? :: servers[i].id
  }

  /** One more server adds its id exactly when it is enabled and its handshake succeeds. */
  lemma StartableIdsSnoc(servers: seq<McpServerConfig>, handshake: McpServerConfig -> Result<seq<McpTool>, McpError>, i: nat)
    requires i < |servers|
    ensures StartableIds(servers[..i + 1], handshake) ==
              StartableIds(servers[..i], handshake)
              + (if servers[i].enabled && handshake(servers[i]).Ok? then {servers[i].id} else {})
  {
    var a, b := servers[..i], servers[..i + 1];
    assert forall j :: 0 <= j < i ==> a[j] == b[j];
    assert b[i] == servers[i];
  }

  /** Only enabled servers are started, and every enabled server whose handshake succeeds is. */
  lemma StartableWithinEnabled(servers: seq<McpServerConfig>, handshake: McpServerConfig -> Result<seq<McpTool>, McpError>)
    ensures StartableIds(servers, handshake) <= EnabledIds(servers)
    ensures forall i :: 0 <= i < |servers| && servers[i].enabled && handshake(servers[i]).Ok? ==>
              servers[i].id in StartableIds(servers, handshake)
  {
    EnabledIdsMeaning(servers);
  }

  /** The registry as a value: runtimes, index entries and the events of the starts, in order. */
  datatype Registry = Registry(runtimes: map<string, ServerRuntime>, indexed: map<string, seq<ToolAlias>>,
                               log: seq<McpEvent>)

  /** `start_server` on a registry value, with the handshake outcome and the two clock readings given. */
  function StartOn(reg: Registry, config: McpServerConfig, handshake: Result<seq<McpTool>, McpError>,
                   times: (int, int), register: Registrar): Registry
  {
    if config.id in reg.runtimes || handshake.Err? then reg
    else
      var aliases := register(config.id, handshake.value, config.allowedTools, config.deniedTools);
      Registry(reg.runtimes[config.id := StartedRuntime(config, handshake.value, times.0, times.1)],
               reg.indexed[config.id := aliases],
               reg.log + [ServerStatusChanged(config.id, Ready, None), ToolsChanged(config.id, AliasNames(aliases))])
  }

  /**
   * The registry after `initialize_from_config` has gone through the first
   * `n` servers, starting from `reg`: each enabled server is started, with
   * the clock readings `clock(i)` for the `i`-th.
   */
  function StartedAfter(servers: seq<McpServerConfig>, n: nat, handshake: McpServerConfig -> Result<seq<McpTool>, McpError>,
                        clock: nat -> (int, int), register: Registrar, reg: Registry): Registry
    requires n <= |servers|
  {
    if n == 0 then reg
    else
      var prev := StartedAfter(servers, n - 1, handshake, clock, register, reg);
      if servers[n - 1].enabled then StartOn(prev, servers[n - 1], handshake(servers[n - 1]), clock(n - 1), register)
      else prev
  }

  /** Starting servers never touches a server already registered: its runtime and index entries stay as they were. */
  lemma {:induction false} StartedKeepsEarlier(servers: seq<McpServerConfig>, n: nat,
                                               handshake: McpServerConfig -> Result<seq<McpTool>, McpError>,
                                               clock: nat -> (int, int), register: Registrar, reg: Registry, id: string)
    requires n <= |servers| && id in reg.runtimes
    ensures var s := StartedAfter(servers, n, handshake, clock, register, reg);
            id in s.runtimes && s.runtimes[id] == reg.runtimes[id]
            && (id in reg.indexed ==> id in s.indexed && s.indexed[id] == reg.indexed[id])
  {
    if n > 0 {
      StartedKeepsEarlier(servers, n - 1, handshake, clock, register, reg, id);
    }
  }

  /** The servers registered after the first `n` are those before plus the startable ones among the first `n`. */
  lemma {:induction false} StartedKeys(servers: seq<McpServerConfig>, n: nat,
                                       handshake: McpServerConfig -> Result<seq<McpTool>, McpError>,
                                       clock: nat -> (int, int), register: Registrar, reg: Registry)
    requires n <= |servers|
    ensures StartedAfter(servers, n, handshake, clock, register, reg).runtimes.Keys
            == reg.runtimes.Keys + StartableIds(servers[..n], handshake)
  {
    if n > 0 {
      StartedKeys(servers, n - 1, handshake, clock, register, reg);
      StartableIdsSnoc(servers, handshake, n - 1);
    }
  }

  /**
   * A server registered by the starts was started by the first enabled
   * server with its id whose handshake succeeded: its runtime is that
   * server's, read with that server's clock, and its index entries those
   * registered for that server's tools.
   */
  lemma {:induction false} StartedByFirst(servers: seq<McpServerConfig>, n: nat,
                                          handshake: McpServerConfig -> Result<seq<McpTool>, McpError>,
                                          clock: nat -> (int, int), register: Registrar, reg: Registry, id: string)
    requires n <= |servers| && id !in reg.runtimes
    requires id in StartedAfter(servers, n, handshake, clock, register, reg).runtimes
    ensures var s := StartedAfter(servers, n, handshake, clock, register, reg);
            exists k :: 0 <= k < n && servers[k].id == id && servers[k].enabled && handshake(servers[k]).Ok?
              && (forall j :: 0 <= j < k && servers[j].id == id ==> !servers[j].enabled || handshake(servers[j]).Err?)
              && s.runtimes[id] == StartedRuntime(servers[k], handshake(servers[k]).value, clock(k).0, clock(k).1)
              && id in s.indexed
              && s.indexed[id] == register(id, handshake(servers[k]).value, servers[k].allowedTools, servers[k].deniedTools)
  {
    var prev := StartedAfter(servers, n - 1, handshake, clock, register, reg);
    var s := StartedAfter(servers, n, handshake, clock, register, reg);
    if id in prev.runtimes {
      StartedByFirst(servers, n - 1, handshake, clock, register, reg, id);
      var k :| 0 <= k < n - 1 && servers[k].id == id && servers[k].enabled && handshake(servers[k]).Ok?
              && (forall j :: 0 <= j < k && servers[j].id == id ==> !servers[j].enabled || handshake(servers[j]).Err?)
              && prev.runtimes[id] == StartedRuntime(servers[k], handshake(servers[k]).value, clock(k).0, clock(k).1)
              && id in prev.indexed
              && prev.indexed[id] == register(id, handshake(servers[k]).value, servers[k].allowedTools, servers[k].deniedTools);
      assert s.runtimes[id] == prev.runtimes[id] && s.indexed[id] == prev.indexed[id];
    } else {
      StartedKeys(servers, n - 1, handshake, clock, register, reg);
      forall j | 0 <= j < n - 1 && servers[j].id == id ensures !servers[j].enabled || handshake(servers[j]).Err? {
        assert servers[..n - 1][j] == servers[j];
      }
    }
  }

  /** A runtime fit to be registered under `id`: its own id, not shut down, counting its tools right. */
  predicate GoodEntry(id: string, rt: ServerRuntime)
  {
    rt.config.id == id && !rt.shutdown && CountMatches(rt)
  }

  /** Every registered server has index entries and a good runtime, and nothing else has index entries. */
  ghost predicate ValidRegistry(rs: map<string, ServerRuntime>, ix: map<string, seq<ToolAlias>>)
  {
    ix.Keys == rs.Keys && forall id :: id in rs ==> GoodEntry(id, rs[id])
  }

  /** Replacing a registered server's runtime by a good one, with or without new index entries, keeps the registry valid. */
  lemma ReplaceEntryValid(rs: map<string, ServerRuntime>, ix: map<string, seq<ToolAlias>>, id: string,
                          rt: ServerRuntime, aliases: seq<ToolAlias>)
    requires ValidRegistry(rs, ix) && id in rs && GoodEntry(id, rt)
    ensures ValidRegistry(rs[id := rt], ix)
    ensures ValidRegistry(rs[id := rt], ix[id := aliases])
  {
  }

  /** The `Stopped` status events of stopping the given servers in order. */
  function StoppedEvents(ids: seq<string>): (r: seq<McpEvent>)
    ensures |r| == |ids|
    ensures forall k :: 0 <= k < |ids| ==> r[k] == ServerStatusChanged(ids[k], Stopped, None)
  {
    seq(|ids|, k requires 0 <= k < |ids| => ServerStatusChanged(ids[k], Stopped, None))
  }

  /** Stopping one more server appends its event. */
  lemma StoppedEventsSnoc(ids: seq<string>, i: nat)
    requires i < |ids|
    ensures StoppedEvents(ids[..i + 1]) == StoppedEvents(ids[..i]) + [ServerStatusChanged(ids[i], Stopped, None)]
  {
  }

  /**
   * `after` is `before` followed by one `Stopped` event for each server in
   * `keys`, and no other event.
   */
  ghost predicate StoppedOncePerServer(before: seq<McpEvent>, after: seq<McpEvent>, keys: set<string>)
  {
    && |after| == |before| + |keys| && after[..|before|] == before
    && (forall k :: |before| <= k < |after| ==>
          after[k] == ServerStatusChanged(after[k].serverId, Stopped, None) && after[k].serverId in keys)
    && (forall k, l :: |before| <= k < l < |after| ==> after[k].serverId != after[l].serverId)
    && (forall id :: id in keys ==> ServerStatusChanged(id, Stopped, None) in after[|before|..])
  }

  /**
   * Stopping each server of a duplicate-free listing of `keys` once sends
   * exactly one `Stopped` event per server.
   */
  lemma StoppedEventsCover(ids: seq<string>, keys: set<string>, before: seq<McpEvent>, after: seq<McpEvent>)
    requires forall id :: id in ids <==> id in keys
    requires |ids| == |keys| && forall i, j :: 0 <= i < j < |ids| ==> ids[i] != ids[j]
    requires after == before + StoppedEvents(ids)
    ensures StoppedOncePerServer(before, after, keys)
  {
    var added := StoppedEvents(ids);
    assert after[|before|..] == added;
    forall k | |before| <= k < |after|
      ensures after[k] == ServerStatusChanged(after[k].serverId, Stopped, None) && after[k].serverId in keys
    {
      assert after[k] == added[k - |before|];
    }
    forall k, l | |before| <= k < l < |after| ensures after[k].serverId != after[l].serverId {
      assert after[k] == added[k - |before|] && after[l] == added[l - |before|];
    }
    forall id | id in keys ensures ServerStatusChanged(id, Stopped, None) in after[|before|..] {
      var k :| 0 <= k < |ids| && ids[k] == id;
      assert added[k] == ServerStatusChanged(id, Stopped, None);
    }
  }

  class McpServerManager {
    /** The running servers by id. */
    var runtimes: map<string, ServerRuntime>
    /** The aliases registered in the tool index, by server id. */
    var indexed: map<string, seq<ToolAlias>>
    /** The events sent on the event channel, in order. */
    var events: seq<McpEvent>
    /** Whether an event channel is attached (`with_event_channel`). */
    const eventsEnabled: bool

    /** The events actually sent: none without a channel. */
    function Emitted(es: seq<McpEvent>): (r: seq<McpEvent>)
      ensures r == [] || r == es
      ensures eventsEnabled ==> r == es
    {
      if eventsEnabled then es else []
    }

    /** Each entry is registered under its own id, has tools in the index, is not shut down, and counts its tools right. */
    ghost predicate Valid()
      reads this`runtimes, this`indexed
    {
      ValidRegistry(runtimes, indexed)
    }

    /** `McpServerManager::new`, with or without an event channel. */
    constructor(withEvents: bool)
      ensures Valid() && runtimes == map[] && indexed == map[] && events == [] && eventsEnabled == withEvents
    {
      runtimes := map[];
      indexed := map[];
      events := [];
      eventsEnabled := withEvents;
    }

    /**
     * `start_server`. `handshake` is the outcome of connecting, `initialize`
     * and `tools/list`: the server's tools, or the first error.
     */
    method StartServer(config: McpServerConfig, handshake: Result<seq<McpTool>, McpError>,
                       connectedAt: int, pingedAt: int, register: Registrar)
      returns (r: Result<(), McpError>)
      requires Valid()
      modifies this
      ensures Valid()
      ensures old(runtimes).Keys <= runtimes.Keys <= old(runtimes).Keys + {config.id}
      ensures handshake.Ok? ==> config.id in runtimes
      ensures config.id in old(runtimes) ==>
                r == Err(AlreadyRunning(config.id)) && runtimes == old(runtimes) && indexed == old(indexed) && events == old(events)
      ensures config.id !in old(runtimes) && handshake.Err? ==>
                r == Err(handshake.error) && runtimes == old(runtimes) && indexed == old(indexed) && events == old(events)
      ensures config.id !in old(runtimes) && handshake.Ok? ==>
                var aliases := register(config.id, handshake.value, config.allowedTools, config.deniedTools);
                && r == Ok(())
                && runtimes == old(runtimes)[config.id := StartedRuntime(config, handshake.value, connectedAt, pingedAt)]
                && indexed == old(indexed)[config.id := aliases]
                && events == old(events) + Emitted([ServerStatusChanged(config.id, Ready, None), ToolsChanged(config.id, AliasNames(aliases))])
    {
      if config.id in runtimes {
        return Err(AlreadyRunning(config.id));
      }
      if handshake.Err? {
        return Err(handshake.error);
      }
      var tools := handshake.value;
      var aliases := register(config.id, tools, config.allowedTools, config.deniedTools);
      runtimes := runtimes[config.id := StartedRuntime(config, tools, connectedAt, pingedAt)];
      indexed := indexed[config.id := aliases];
      events := events + Emitted([ServerStatusChanged(config.id, Ready, None), ToolsChanged(config.id, AliasNames(aliases))]);
      r := Ok(());
    }

    /** `stop_server`: the entry, its index entries and the health check go; the removed runtime is returned. */
    method StopServer(serverId: string, now: int) returns (r: Result<ServerRuntime, McpError>)
      requires Valid()
      modifies this
      ensures Valid()
      ensures serverId !in old(runtimes) ==>
                r == Err(NotRunning(serverId)) && runtimes == old(runtimes) && indexed == old(indexed) && events == old(events)
      ensures serverId in old(runtimes) ==>
                && r == Ok(StoppedRuntime(old(runtimes)[serverId], now))
                && runtimes == old(runtimes) - {serverId} && indexed == old(indexed) - {serverId}
                && events == old(events) + Emitted([ServerStatusChanged(serverId, Stopped, None)])
    {
      if serverId !in runtimes {
        return Err(NotRunning(serverId));
      }
      var rt := runtimes[serverId];
      runtimes := runtimes - {serverId};
      indexed := indexed - {serverId};
      events := events + Emitted([ServerStatusChanged(serverId, Stopped, None)]);
      r := Ok(StoppedRuntime(rt, now));
    }

    /** `call_tool`: `outcome` is what the server's client returned for the call. */
    method CallTool(serverId: string, toolName: string, outcome: Result<McpCallResult, McpError>)
      returns (r: Result<McpCallResult, McpError>)
      requires Valid()
      modifies this
      ensures Valid() && runtimes == old(runtimes) && indexed == old(indexed)
      ensures serverId !in runtimes ==> r == Err(ServerNotFound(serverId)) && events == old(events)
      ensures serverId in runtimes ==> r == outcome
      ensures serverId in runtimes && outcome.Ok? ==>
                events == old(events) + Emitted([ToolExecuted(serverId, toolName, !outcome.value.isError)])
      ensures serverId in runtimes && outcome.Err? ==> events == old(events)
    {
      if serverId !in runtimes {
        return Err(ServerNotFound(serverId));
      }
      r := outcome;
      if outcome.Ok? {
        events := events + Emitted([ToolExecuted(serverId, toolName, !outcome.value.isError)]);
      }
    }

    /** `get_tool_info`: the first tool of that name on a running server. */
    function GetToolInfo(serverId: string, toolName: string): (r: Option<McpTool>)
      reads this
      ensures serverId !in runtimes ==> r.None?
      ensures r.Some? ==> r.value in runtimes[serverId].tools && r.value.name == toolName
      ensures serverId in runtimes ==>
                (r.Some? <==> exists i :: 0 <= i < |runtimes[serverId].tools| && runtimes[serverId].tools[i].name == toolName)
      ensures r.Some? ==> exists i :: 0 <= i < |runtimes[serverId].tools| && runtimes[serverId].tools[i] == r.value
                            && forall j :: 0 <= j < i ==> runtimes[serverId].tools[j].name != toolName
    {
      if serverId in runtimes then FindTool(runtimes[serverId].tools, toolName) else None
    }

    /** `refresh_tools`: `listed` is the outcome of `tools/list`; on success the tools, their count and the index entries are replaced. */
    method RefreshTools(serverId: string, listed: Result<seq<McpTool>, McpError>, register: Registrar)
      returns (r: Result<(), McpError>)
      requires Valid()
      modifies this
      ensures Valid()
      ensures serverId !in old(runtimes) ==>
                r == Err(ServerNotFound(serverId)) && runtimes == old(runtimes) && indexed == old(indexed) && events == old(events)
      ensures serverId in old(runtimes) && listed.Err? ==>
                r == Err(listed.error) && runtimes == old(runtimes) && indexed == old(indexed) && events == old(events)
      ensures serverId in old(runtimes) && listed.Ok? ==>
                var rt := old(runtimes)[serverId];
                var aliases := register(serverId, listed.value, rt.config.allowedTools, rt.config.deniedTools);
                && r == Ok(())
                && runtimes == old(runtimes)[serverId := rt.(tools := listed.value, info := rt.info.(toolCount := |listed.value|))]
                && indexed == old(indexed)[serverId := aliases]
                && events == old(events) + Emitted([ToolsChanged(serverId, AliasNames(aliases))])
    {
      if serverId !in runtimes {
        return Err(ServerNotFound(serverId));
      }
      if listed.Err? {
        return Err(listed.error);
      }
      var rt := runtimes[serverId];
      var tools := listed.value;
      var aliases := register(serverId, tools, rt.config.allowedTools, rt.config.deniedTools);
      runtimes := runtimes[serverId := rt.(tools := tools, info := rt.info.(toolCount := |tools|))];
      indexed := indexed[serverId := aliases];
      events := events + Emitted([ToolsChanged(serverId, AliasNames(aliases))]);
      r := Ok(());
    }

    /** `list_servers`: every registered id once, in the map's iteration order. */
    method ListServers() returns (ids: seq<string>)
      ensures forall id :: id in ids <==> id in runtimes
      ensures |ids| == |runtimes.Keys|
      ensures forall i, j :: 0 <= i < j < |ids| ==> ids[i] != ids[j]
    {
      ids := [];
      var rest := runtimes.Keys;
      while rest != {}
        invariant rest <= runtimes.Keys
        invariant forall id :: id in runtimes ==> (id in ids <==> id !in rest)
        invariant forall id :: id in ids ==> id in runtimes
        invariant |ids| + |rest| == |runtimes.Keys|
        invariant forall i, j :: 0 <= i < j < |ids| ==> ids[i] != ids[j]
        decreases |rest|
      {
        var id :| id in rest;
        ids := ids + [id];
        rest := rest - {id};
      }
    }

    /** `get_server_info` */
    function GetServerInfo(serverId: string): (r: Option<RuntimeInfo>)
      reads this
      ensures r.Some? <==> serverId in runtimes
      ensures r.Some? ==> r.value == runtimes[serverId].info
    {
      if serverId in runtimes then Some(runtimes[serverId].info) else None
    }

    /** `is_server_running` */
    predicate IsServerRunning(serverId: string)
      reads this
    {
      serverId in runtimes
    }

    /**
     * `shutdown_all`: every listed server is stopped, each sending one
     * `Stopped` event; nothing else is sent.
     */
    method ShutdownAll(now: int)
      requires Valid()
      modifies this
      ensures Valid() && runtimes == map[] && indexed == map[]
      ensures !eventsEnabled ==> events == old(events)
      ensures eventsEnabled ==> StoppedOncePerServer(old(events), events, old(runtimes).Keys)
    {
      var ids := ListServers();
      StopEach(ids, now);
      if eventsEnabled {
        StoppedEventsCover(ids, old(runtimes).Keys, old(events), events);
      }
    }

    /** The loop of `shutdown_all`: `stop_server` on each listed id in turn. */
    method StopEach(ids: seq<string>, now: int)
      requires Valid()
      requires forall id :: id in runtimes <==> id in ids
      requires forall i, j :: 0 <= i < j < |ids| ==> ids[i] != ids[j]
      modifies this
      ensures Valid() && runtimes == map[] && indexed == map[]
      ensures events == old(events) + (if eventsEnabled then StoppedEvents(ids) else [])
    {
      var i := 0;
      while i < |ids|
        invariant 0 <= i <= |ids| && Valid()
        invariant forall id :: id in runtimes <==> id in ids[i..]
        invariant events == old(events) + (if eventsEnabled then StoppedEvents(ids[..i]) else [])
      {
        StopNext(ids, i, now);
        StoppedEventsSnoc(ids, i);
        i := i + 1;
      }
      assert runtimes.Keys == {};
      assert ids[..i] == ids;
    }

    /** One step of that loop: the next listed server is stopped, and only it. */
    method StopNext(ids: seq<string>, i: nat, now: int)
      requires Valid() && i < |ids|
      requires forall id :: id in runtimes <==> id in ids[i..]
      requires forall p, q :: 0 <= p < q < |ids| ==> ids[p] != ids[q]
      modifies this
      ensures Valid()
      ensures forall id :: id in runtimes <==> id in ids[i + 1..]
      ensures events == old(events) + Emitted([ServerStatusChanged(ids[i], Stopped, None)])
    {
      assert ids[i] !in ids[i + 1..] by {
        forall j | i + 1 <= j < |ids| ensures ids[j] != ids[i] {
        }
      }
      assert ids[i..] == [ids[i]] + ids[i + 1..];
      var _ := StopServer(ids[i], now);
    }

    /**
     * `initialize_from_config`: every enabled server is started in order; a
     * failure is only logged. `clock(i)` holds the two clock readings taken
     * while the `i`-th server starts.
     */
    method InitializeFromConfig(config: McpConfig, handshake: McpServerConfig -> Result<seq<McpTool>, McpError>,
                                clock: nat -> (int, int), register: Registrar)
      requires Valid()
      modifies this
      ensures Valid()
      ensures var s := StartedAfter(config.servers, |config.servers|, handshake, clock, register, Registry(old(runtimes), old(indexed), []));
              && runtimes == s.runtimes
              && indexed == s.indexed
              && events == old(events) + Emitted(s.log)
      ensures runtimes.Keys == old(runtimes).Keys + StartableIds(config.servers, handshake)
      ensures old(runtimes).Keys <= runtimes.Keys <= old(runtimes).Keys + EnabledIds(config.servers)
      ensures forall i :: 0 <= i < |config.servers| && config.servers[i].enabled && handshake(config.servers[i]).Ok? ==>
                config.servers[i].id in runtimes
      ensures forall id :: id in old(runtimes) ==> runtimes[id] == old(runtimes)[id] && indexed[id] == old(indexed)[id]
      ensures forall id :: id in runtimes && id !in old(runtimes) ==>
                exists k :: 0 <= k < |config.servers| && config.servers[k].id == id
                  && config.servers[k].enabled && handshake(config.servers[k]).Ok?
                  && (forall j :: 0 <= j < k && config.servers[j].id == id ==>
                        !config.servers[j].enabled || handshake(config.servers[j]).Err?)
                  && runtimes[id] == StartedRuntime(config.servers[k], handshake(config.servers[k]).value, clock(k).0, clock(k).1)
                  && indexed[id] == register(id, handshake(config.servers[k]).value,
                                             config.servers[k].allowedTools, config.servers[k].deniedTools)
    {
      ghost var start := Registry(runtimes, indexed, []);
      for i := 0 to |config.servers|
        invariant Valid()
        invariant runtimes == StartedAfter(config.servers, i, handshake, clock, register, start).runtimes
        invariant indexed == StartedAfter(config.servers, i, handshake, clock, register, start).indexed
        invariant events == old(events) + Emitted(StartedAfter(config.servers, i, handshake, clock, register, start).log)
      {
        StartNext(config.servers, handshake, i, clock, register, start, old(events));
      }
      StartedKeys(config.servers, |config.servers|, handshake, clock, register, start);
      assert config.servers[..|config.servers|] == config.servers;
      StartableWithinEnabled(config.servers, handshake);
      forall id | id in old(runtimes) ensures runtimes[id] == old(runtimes)[id] && indexed[id] == old(indexed)[id] {
        StartedKeepsEarlier(config.servers, |config.servers|, handshake, clock, register, start, id);
      }
      forall id | id in runtimes && id !in old(runtimes)
        ensures exists k :: 0 <= k < |config.servers| && config.servers[k].id == id
                  && config.servers[k].enabled && handshake(config.servers[k]).Ok?
                  && (forall j :: 0 <= j < k && config.servers[j].id == id ==>
                        !config.servers[j].enabled || handshake(config.servers[j]).Err?)
                  && runtimes[id] == StartedRuntime(config.servers[k], handshake(config.servers[k]).value, clock(k).0, clock(k).1)
                  && indexed[id] == register(id, handshake(config.servers[k]).value,
                                             config.servers[k].allowedTools, config.servers[k].deniedTools)
      {
        StartedByFirst(config.servers, |config.servers|, handshake, clock, register, start, id);
      }
    }

    /**
     * One pass of `initialize_from_config`: the `i`-th server is started
     * when it is enabled, with the clock readings `clock(i)`. `prior` is the
     * registry value the earlier passes built, on top of the events
     * `before`.
     */
    method StartNext(servers: seq<McpServerConfig>, handshake: McpServerConfig -> Result<seq<McpTool>, McpError>,
                     i: nat, clock: nat -> (int, int), register: Registrar, ghost start: Registry, ghost before: seq<McpEvent>)
      requires Valid() && i < |servers|
      requires runtimes == StartedAfter(servers, i, handshake, clock, register, start).runtimes
      requires indexed == StartedAfter(servers, i, handshake, clock, register, start).indexed
      requires events == before + Emitted(StartedAfter(servers, i, handshake, clock, register, start).log)
      modifies this
      ensures Valid()
      ensures !servers[i].enabled ==> runtimes == old(runtimes) && indexed == old(indexed) && events == old(events)
      ensures servers[i].enabled && (servers[i].id in old(runtimes) || handshake(servers[i]).Err?) ==>
                runtimes == old(runtimes) && indexed == old(indexed) && events == old(events)
      ensures servers[i].enabled && servers[i].id !in old(runtimes) && handshake(servers[i]).Ok? ==>
                var id := servers[i].id;
                var aliases := register(id, handshake(servers[i]).value, servers[i].allowedTools, servers[i].deniedTools);
                && runtimes == old(runtimes)[id := StartedRuntime(servers[i], handshake(servers[i]).value, clock(i).0, clock(i).1)]
                && indexed == old(indexed)[id := aliases]
                && events == old(events) + Emitted([ServerStatusChanged(id, Ready, None), ToolsChanged(id, AliasNames(aliases))])
      ensures runtimes == StartedAfter(servers, i + 1, handshake, clock, register, start).runtimes
      ensures indexed == StartedAfter(servers, i + 1, handshake, clock, register, start).indexed
      ensures events == before + Emitted(StartedAfter(servers, i + 1, handshake, clock, register, start).log)
    {
      if servers[i].enabled {
        var _ := StartServer(servers[i], handshake(servers[i]), clock(i).0, clock(i).1, register);
      }
    }

    /** One round of the health check loop: `ping` is the outcome of the ping. */
    method HealthCheck(serverId: string, ping: Result<(), McpError>, now: int) returns (next: Tick)
      requires Valid()
      modifies this
      ensures Valid() && indexed == old(indexed)
      ensures serverId !in old(runtimes) ==> next == Stop && runtimes == old(runtimes) && events == old(events)
      ensures serverId in old(runtimes) && old(runtimes)[serverId].reconnecting ==>
                next == Continue && runtimes == old(runtimes) && events == old(events)
      ensures serverId in old(runtimes) && !old(runtimes)[serverId].reconnecting ==>
                var rt := old(runtimes)[serverId];
                && runtimes == old(runtimes)[serverId := rt.(info := AfterPing(rt.info, ping, now))]
                && events == old(events) + Emitted(PingEvents(serverId, rt.info, ping))
                && next == (if ping.Err? && rt.config.reconnect.enabled then Reconnect else Continue)
    {
      if serverId !in runtimes {
        return Stop;
      }
      var rt := runtimes[serverId];
      if rt.reconnecting {
        return Continue;
      }
      runtimes := runtimes[serverId := rt.(info := AfterPing(rt.info, ping, now))];
      events := events + Emitted(PingEvents(serverId, rt.info, ping));
      next := if ping.Err? && rt.config.reconnect.enabled then Reconnect else Continue;
    }

    /**
     * `attempt_reconnection`. `outcomes[i]` is the outcome of reconnect
     * attempt `i`, `cancelAt` the attempt before which shutdown is observed;
     * the run must end within the given outcomes. `sleeps` are the backoffs
     * waited, one before each attempt.
     */
    method AttemptReconnection(serverId: string, outcomes: seq<Result<seq<McpTool>, McpError>>, cancelAt: Option<nat>,
                               now: int, register: Registrar)
      returns (r: Result<(), McpError>, sleeps: seq<nat>)
      requires Valid() && serverId in runtimes
      requires RunEnd(runtimes[serverId].config.reconnect, outcomes, cancelAt, 0) != Exhausted
      modifies this
      ensures Valid()
      ensures old(runtimes)[serverId].reconnecting ==>
                r == Ok(()) && sleeps == [] && runtimes == old(runtimes) && indexed == old(indexed) && events == old(events)
      ensures !old(runtimes)[serverId].reconnecting ==>
                var rt := old(runtimes)[serverId];
                var cfg := rt.config.reconnect;
                var e := RunEnd(cfg, outcomes, cancelAt, 0);
                && sleeps == Schedule(cfg.initialBackoffMs, cfg.maxBackoffMs, e.attempts)
                && r == RunResult(serverId, e)
                && runtimes == old(runtimes)[serverId := AfterRun(rt, outcomes, e, now)]
                && indexed == (if e.Recovered? then old(indexed)[serverId := register(serverId, e.tools, rt.config.allowedTools, rt.config.deniedTools)]
                               else old(indexed))
                && events == old(events) + Emitted(RunEvents(serverId, e, indexed[serverId]))
    {
      var rt := runtimes[serverId];
      if rt.reconnecting {
        return Ok(()), [];
      }
      var ending, lastError;
      ending, lastError, sleeps := RunAttempts(rt.config.reconnect, outcomes, cancelAt, rt.info.lastError);
      match ending {
        case Cancelled(_) =>
          runtimes := runtimes[serverId := rt.(info := rt.info.(lastError := lastError))];
        case GaveUp(_) =>
          runtimes := runtimes[serverId := rt.(info := GaveUpInfo(rt.info, now))];
        case Recovered(_, tools) =>
          indexed := indexed[serverId := register(serverId, tools, rt.config.allowedTools, rt.config.deniedTools)];
          runtimes := runtimes[serverId := RecoveredRuntime(rt, tools)];
      }
      assert runtimes[serverId] == AfterRun(rt, outcomes, ending, now);
      ReplaceEntryValid(old(runtimes), old(indexed), serverId, runtimes[serverId], indexed[serverId]);
      events := events + Emitted(RunEvents(serverId, ending, indexed[serverId]));
      r := RunResult(serverId, ending);
    }
  }
}
