// The error type of the MCP client (crates/agent-mcp/src/error.rs): its
// variants, the message each displays, and the conversions from the
// errors of serde_json, std::io and reqwest (given by their messages).
module McpErrors {
  import opened Wrappers
  import opened Strings

  datatype McpError =
    | Transport(message: string)
    | Protocol(message: string)
    | Connection(message: string)
    | Timeout(message: string)
    | ToolExecution(message: string)
    | ServerNotFound(message: string)
    | ToolNotFound(message: string)
    | Serialization(message: string)
    | InvalidConfig(message: string)
    | Disconnected
    | AlreadyRunning(message: string)
    | NotRunning(message: string)

  /** The fixed text that starts the display of a variant carrying a message. */
  function Prefix(e: McpError): string
    requires !e.Disconnected?
  {
    match e
    case Transport(_) => "Transport error: "
    case Protocol(_) => "Protocol error: "
    case Connection(_) => "Connection error: "
    case Timeout(_) => "Timeout error: "
    case ToolExecution(_) => "Tool execution error: "
    case ServerNotFound(_) => "Server not found: "
    case ToolNotFound(_) => "Tool not found: "
    case Serialization(_) => "Serialization error: "
    case InvalidConfig(_) => "Invalid configuration: "
    case AlreadyRunning(_) => "Server already running: "
    case NotRunning(_) => "Server not running: "
  }

  /** The `Display` text: the variant's prefix and its message, or "Server disconnected". */
  function Display(e: McpError): (s: string)
    ensures e.Disconnected? ==> s == "Server disconnected"
    ensures !e.Disconnected? ==> StartsWith(s, Prefix(e)) && EndsWith(s, e.message)
  {
    if e.Disconnected? then "Server disconnected"
    else
      StartsWithAppend(Prefix(e), e.message);
      EndsWithAppend(Prefix(e), e.message);
      Prefix(e) + e.message
  }

  /** Reads a display text back into the error it came from. */
  function ParseDisplay(s: string): Option<McpError>
  {
    if s == "Server disconnected" then Some(Disconnected)
    else if StartsWith(s, "Transport error: ") then Some(Transport(s[17..]))
    else if StartsWith(s, "Protocol error: ") then Some(Protocol(s[16..]))
    else if StartsWith(s, "Connection error: ") then Some(Connection(s[18..]))
    else if StartsWith(s, "Timeout error: ") then Some(Timeout(s[15..]))
    else if StartsWith(s, "Tool execution error: ") then Some(ToolExecution(s[22..]))
    else if StartsWith(s, "Server not found: ") then Some(ServerNotFound(s[18..]))
    else if StartsWith(s, "Tool not found: ") then Some(ToolNotFound(s[16..]))
    else if StartsWith(s, "Serialization error: ") then Some(Serialization(s[21..]))
    else if StartsWith(s, "Invalid configuration: ") then Some(InvalidConfig(s[23..]))
    else if StartsWith(s, "Server already running: ") then Some(AlreadyRunning(s[24..]))
    else if StartsWith(s, "Server not running: ") then Some(NotRunning(s[20..]))
    else None
  }

  /** Splits a display text into the variant's prefix and the message. */
  lemma DisplaySplit(e: McpError)
    requires !e.Disconnected?
    ensures Display(e)[..|Prefix(e)|] == Prefix(e) && Display(e)[|Prefix(e)|..] == e.message
  {
  }

  /** A string that differs from `p` at some position inside both does not start with `p`. */
  lemma NotStartsWithAt(s: string, p: string, i: nat)
    requires i < |s| && i < |p| && s[i] != p[i]
    ensures !StartsWith(s, p)
  {
  }

  lemma RoundTripTransport(m: string)
    ensures ParseDisplay(Display(Transport(m))) == Some(Transport(m))
  {
    var s := Display(Transport(m));
    DisplaySplit(Transport(m));
    assert s[0] == 'T';
  }

  lemma RoundTripProtocol(m: string)
    ensures ParseDisplay(Display(Protocol(m))) == Some(Protocol(m))
  {
    var s := Display(Protocol(m));
    DisplaySplit(Protocol(m));
    assert s[0] == 'P';
    NotStartsWithAt(s, "Transport error: ", 0);
  }

  lemma RoundTripConnection(m: string)
    ensures ParseDisplay(Display(Connection(m))) == Some(Connection(m))
  {
    var s := Display(Connection(m));
    DisplaySplit(Connection(m));
    assert s[0] == 'C';
    NotStartsWithAt(s, "Transport error: ", 0);
    NotStartsWithAt(s, "Protocol error: ", 0);
  }

  lemma RoundTripTimeout(m: string)
    ensures ParseDisplay(Display(Timeout(m))) == Some(Timeout(m))
  {
    var s := Display(Timeout(m));
    DisplaySplit(Timeout(m));
    assert s[0] == 'T';
    NotStartsWithAt(s, "Transport error: ", 1);
    NotStartsWithAt(s, "Protocol error: ", 0);
    NotStartsWithAt(s, "Connection error: ", 0);
  }

  lemma RoundTripToolExecution(m: string)
    ensures ParseDisplay(Display(ToolExecution(m))) == Some(ToolExecution(m))
  {
    var s := Display(ToolExecution(m));
    DisplaySplit(ToolExecution(m));
    assert s[0] == 'T';
    NotStartsWithAt(s, "Transport error: ", 1);
    NotStartsWithAt(s, "Protocol error: ", 0);
    NotStartsWithAt(s, "Connection error: ", 0);
    NotStartsWithAt(s, "Timeout error: ", 1);
  }

  lemma RoundTripServerNotFound(m: string)
    ensures ParseDisplay(Display(ServerNotFound(m))) == Some(ServerNotFound(m))
  {
    var s := Display(ServerNotFound(m));
    DisplaySplit(ServerNotFound(m));
    assert s[7] == 'n';
    NotStartsWithAt(s, "Transport error: ", 0);
    NotStartsWithAt(s, "Protocol error: ", 0);
    NotStartsWithAt(s, "Connection error: ", 0);
    NotStartsWithAt(s, "Timeout error: ", 0);
    NotStartsWithAt(s, "Tool execution error: ", 0);
  }

  lemma RoundTripToolNotFound(m: string)
    ensures ParseDisplay(Display(ToolNotFound(m))) == Some(ToolNotFound(m))
  {
    var s := Display(ToolNotFound(m));
    DisplaySplit(ToolNotFound(m));
    assert s[0] == 'T';
    NotStartsWithAt(s, "Transport error: ", 1);
    NotStartsWithAt(s, "Protocol error: ", 0);
    NotStartsWithAt(s, "Connection error: ", 0);
    NotStartsWithAt(s, "Timeout error: ", 1);
    NotStartsWithAt(s, "Tool execution error: ", 5);
    NotStartsWithAt(s, "Server not found: ", 0);
  }

  lemma RoundTripSerialization(m: string)
    ensures ParseDisplay(Display(Serialization(m))) == Some(Serialization(m))
  {
    var s := Display(Serialization(m));
    DisplaySplit(Serialization(m));
    assert s[3] == 'i';
    NotStartsWithAt(s, "Transport error: ", 0);
    NotStartsWithAt(s, "Protocol error: ", 0);
    NotStartsWithAt(s, "Connection error: ", 0);
    NotStartsWithAt(s, "Timeout error: ", 0);
    NotStartsWithAt(s, "Tool execution error: ", 0);
    NotStartsWithAt(s, "Server not found: ", 3);
    NotStartsWithAt(s, "Tool not found: ", 0);
  }

  lemma RoundTripInvalidConfig(m: string)
    ensures ParseDisplay(Display(InvalidConfig(m))) == Some(InvalidConfig(m))
  {
    var s := Display(InvalidConfig(m));
    DisplaySplit(InvalidConfig(m));
    assert s[0] == 'I';
    NotStartsWithAt(s, "Transport error: ", 0);
    NotStartsWithAt(s, "Protocol error: ", 0);
    NotStartsWithAt(s, "Connection error: ", 0);
    NotStartsWithAt(s, "Timeout error: ", 0);
    NotStartsWithAt(s, "Tool execution error: ", 0);
    NotStartsWithAt(s, "Server not found: ", 0);
    NotStartsWithAt(s, "Tool not found: ", 0);
    NotStartsWithAt(s, "Serialization error: ", 0);
  }

  lemma RoundTripAlreadyRunning(m: string)
    ensures ParseDisplay(Display(AlreadyRunning(m))) == Some(AlreadyRunning(m))
  {
    var s := Display(AlreadyRunning(m));
    DisplaySplit(AlreadyRunning(m));
    assert s[7] == 'a';
    NotStartsWithAt(s, "Transport error: ", 0);
    NotStartsWithAt(s, "Protocol error: ", 0);
    NotStartsWithAt(s, "Connection error: ", 0);
    NotStartsWithAt(s, "Timeout error: ", 0);
    NotStartsWithAt(s, "Tool execution error: ", 0);
    NotStartsWithAt(s, "Server not found: ", 7);
    NotStartsWithAt(s, "Tool not found: ", 0);
    NotStartsWithAt(s, "Serialization error: ", 3);
    NotStartsWithAt(s, "Invalid configuration: ", 0);
  }

  lemma RoundTripNotRunning(m: string)
    ensures ParseDisplay(Display(NotRunning(m))) == Some(NotRunning(m))
  {
    var s := Display(NotRunning(m));
    DisplaySplit(NotRunning(m));
    assert s[7] == 'n';
    NotStartsWithAt(s, "Transport error: ", 0);
    NotStartsWithAt(s, "Protocol error: ", 0);
    NotStartsWithAt(s, "Connection error: ", 0);
    NotStartsWithAt(s, "Timeout error: ", 0);
    NotStartsWithAt(s, "Tool execution error: ", 0);
    NotStartsWithAt(s, "Server not found: ", 11);
    NotStartsWithAt(s, "Tool not found: ", 0);
    NotStartsWithAt(s, "Serialization error: ", 3);
    NotStartsWithAt(s, "Invalid configuration: ", 0);
    NotStartsWithAt(s, "Server already running: ", 7);
  }

  /** The display text determines the error: every variant has its own prefix. */
  lemma ParseDisplayRoundTrip(e: McpError)
    ensures ParseDisplay(Display(e)) == Some(e)
  {
    match e
    case Transport(m) => RoundTripTransport(m);
    case Protocol(m) => RoundTripProtocol(m);
    case Connection(m) => RoundTripConnection(m);
    case Timeout(m) => RoundTripTimeout(m);
    case ToolExecution(m) => RoundTripToolExecution(m);
    case ServerNotFound(m) => RoundTripServerNotFound(m);
    case ToolNotFound(m) => RoundTripToolNotFound(m);
    case Serialization(m) => RoundTripSerialization(m);
    case InvalidConfig(m) => RoundTripInvalidConfig(m);
    case AlreadyRunning(m) => RoundTripAlreadyRunning(m);
    case NotRunning(m) => RoundTripNotRunning(m);
    case Disconnected =>
  }

  /** Two errors with the same display text are the same error. */
  lemma DisplayInjective(a: McpError, b: McpError)
    ensures Display(a) == Display(b) <==> a == b
  {
    ParseDisplayRoundTrip(a);
    ParseDisplayRoundTrip(b);
  }

  /** `From<serde_json::Error>` */
  function FromSerdeError(message: string): (e: McpError)
    ensures e.Serialization? && Display(e) == "Serialization error: " + message
  {
    Serialization(message)
  }

  /** `From<std::io::Error>` */
  function FromIoError(message: string): (e: McpError)
    ensures e.Transport? && Display(e) == "Transport error: " + message
  {
    Transport(message)
  }

  /** `From<reqwest::Error>` */
  function FromReqwestError(message: string): (e: McpError)
    ensures e.Transport? && Display(e) == "Transport error: " + message
  {
    Transport(message)
  }
}
