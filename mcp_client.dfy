// The MCP protocol client (crates/agent-mcp/src/protocol/client.rs): the
// request-id counter, the table of requests waiting for a response, the
// message handler that routes incoming messages, and the mapping of
// responses to results. The transport is abstract: what `send` returns is
// an input, and the messages the handler receives while a request waits
// are an input sequence. Tasks and channels are replaced by running the
// handler over those messages in order.
module McpClient {
  import opened Wrappers
  import opened Strings
  import opened JsonValue
  import opened McpTypes
  import opened McpModels
  import opened McpErrors

  /** What the message handler owns: the waiting requests, the notification queue, the responses handed over. */
  datatype HandlerState = HandlerState(
    pending: set<nat>, notifications: seq<JsonRpcNotification>, delivered: seq<JsonRpcResponse>)

  /** How `handle_message` reads a message: as a response first, then as a notification. */
  datatype Incoming = AsResponse(response: JsonRpcResponse) | AsNotification(notification: JsonRpcNotification) | Unknown

  function Classify(message: string, parse: Parser): (r: Incoming)
    ensures r.AsResponse? <==> parse(message).Some? && DecodeResponse(parse(message).value).Some?
    ensures r.AsResponse? ==> DecodeResponse(parse(message).value) == Some(r.response)
    ensures r.AsNotification? ==> parse(message).Some? && DecodeResponse(parse(message).value).None?
                                  && DecodeNotification(parse(message).value) == Some(r.notification)
    ensures r.Unknown? <==> parse(message).None? || (DecodeResponse(parse(message).value).None?
                                                     && DecodeNotification(parse(message).value).None?)
  {
    match parse(message)
    case None => Unknown
    case Some(v) =>
      match DecodeResponse(v)
      case Some(resp) => AsResponse(resp)
      case None =>
        match DecodeNotification(v)
        case Some(n) => AsNotification(n)
        case None => Unknown
  }

  /**
   * The effect of `handle_message`: a response whose id is waiting is
   * handed over and its entry removed; a response with an unknown id
   * changes nothing; a notification is queued.
   */
  function Handle(st: HandlerState, message: string, parse: Parser): (r: HandlerState)
    ensures |r.delivered| == |st.delivered| || |r.delivered| == |st.delivered| + 1
    ensures r.delivered[..|st.delivered|] == st.delivered
    ensures |r.delivered| == |st.delivered| ==> r.pending == st.pending
    ensures |r.delivered| == |st.delivered| + 1 ==>
              var resp := r.delivered[|st.delivered|];
              resp.id in st.pending && r.pending == st.pending - {resp.id}
              && Classify(message, parse) == AsResponse(resp)
    ensures Classify(message, parse).AsResponse? && Classify(message, parse).response.id !in st.pending ==> r == st
    ensures Classify(message, parse).AsNotification? ==>
              r == st.(notifications := st.notifications + [Classify(message, parse).notification])
    ensures Classify(message, parse).Unknown? ==> r == st
  {
    match Classify(message, parse)
    case AsResponse(resp) =>
      if resp.id in st.pending then
        assert (st.delivered + [resp])[..|st.delivered|] == st.delivered;
        st.(pending := st.pending - {resp.id}, delivered := st.delivered + [resp])
      else st
    case AsNotification(n) => st.(notifications := st.notifications + [n])
    case Unknown => st
  }

  /** What `handle_message` returns: only a message that is neither kind is an error. */
  function HandleResult(message: string, parse: Parser): (r: Result<(), McpError>)
    ensures r.Err? <==> Classify(message, parse).Unknown?
    ensures r.Err? ==> Display(r.error) == "Protocol error: Unknown message type"
  {
    if Classify(message, parse).Unknown? then Err(Protocol("Unknown message type")) else Ok(())
  }

  /** The handler run over the messages received, in order. */
  function HandleAll(st: HandlerState, msgs: seq<string>, parse: Parser): (r: HandlerState)
    ensures |st.delivered| <= |r.delivered| && r.delivered[..|st.delivered|] == st.delivered
  {
    if msgs == [] then st else Handle(HandleAll(st, msgs[..|msgs| - 1], parse), msgs[|msgs| - 1], parse)
  }

  /**
   * What the handler did between `st0` and `r`: the history of handed-over
   * responses only grew; each new one answered a request that was waiting,
   * and no request was answered twice; a request's entry is gone exactly
   * when it was answered.
   */
  ghost predicate AnsweredSince(st0: HandlerState, r: HandlerState)
  {
    && |st0.delivered| <= |r.delivered| && r.delivered[..|st0.delivered|] == st0.delivered
    && r.pending <= st0.pending
    && (forall i :: |st0.delivered| <= i < |r.delivered| ==> r.delivered[i].id in st0.pending && r.delivered[i].id !in r.pending)
    && (forall id :: id in st0.pending && id !in r.pending ==>
          exists i :: |st0.delivered| <= i < |r.delivered| && r.delivered[i].id == id)
    && (forall i, j :: |st0.delivered| <= i < j < |r.delivered| ==> r.delivered[i].id != r.delivered[j].id)
  }

  /** Handing over one response to a waiting request keeps the history in step. */
  lemma AnsweredSinceDeliver(st0: HandlerState, mid: HandlerState, r: HandlerState, resp: JsonRpcResponse)
    requires AnsweredSince(st0, mid)
    requires resp.id in mid.pending && r.pending == mid.pending - {resp.id} && r.delivered == mid.delivered + [resp]
    ensures AnsweredSince(st0, r)
  {
    assert r.delivered[..|st0.delivered|] == mid.delivered[..|st0.delivered|];
    forall id | id in st0.pending && id !in r.pending
      ensures exists i :: |st0.delivered| <= i < |r.delivered| && r.delivered[i].id == id
    {
      if id == resp.id {
        assert r.delivered[|mid.delivered|].id == id;
      } else {
        var i :| |st0.delivered| <= i < |mid.delivered| && mid.delivered[i].id == id;
        assert r.delivered[i].id == id;
      }
    }
  }

  lemma AnsweredSinceStep(st0: HandlerState, mid: HandlerState, message: string, parse: Parser)
    requires AnsweredSince(st0, mid)
    ensures AnsweredSince(st0, Handle(mid, message, parse))
  {
    var r := Handle(mid, message, parse);
    if |r.delivered| == |mid.delivered| {
      assert r.delivered == mid.delivered;
    } else {
      var resp := r.delivered[|mid.delivered|];
      assert r.delivered == mid.delivered + [resp];
      AnsweredSinceDeliver(st0, mid, r, resp);
    }
  }

  /** Running the handler over any messages keeps the pending table and the handed-over responses in step. */
  lemma {:induction false} HandleAllAnswers(st0: HandlerState, msgs: seq<string>, parse: Parser)
    ensures AnsweredSince(st0, HandleAll(st0, msgs, parse))
  {
    if msgs == [] {
      assert st0.delivered[..|st0.delivered|] == st0.delivered;
    } else {
      HandleAllAnswers(st0, msgs[..|msgs| - 1], parse);
      AnsweredSinceStep(st0, HandleAll(st0, msgs[..|msgs| - 1], parse), msgs[|msgs| - 1], parse);
    }
  }

  /** The response for `id` among those handed over, the first if any. */
  function AnswerFor(id: nat, answers: seq<JsonRpcResponse>): (r: Option<JsonRpcResponse>)
    ensures r.Some? <==> exists i :: 0 <= i < |answers| && answers[i].id == id
    ensures r.Some? ==> r.value.id == id && r.value in answers
  {
    if answers == [] then None
    else if answers[0].id == id then Some(answers[0])
    else
      var rest := AnswerFor(id, answers[1..]);
      assert (exists i :: 0 <= i < |answers| && answers[i].id == id) ==> exists i :: 0 <= i < |answers[1..]| && answers[1..][i].id == id by {
        if exists i :: 0 <= i < |answers| && answers[i].id == id {
          var i :| 0 <= i < |answers| && answers[i].id == id;
          assert answers[1..][i - 1].id == id;
        }
      }
      rest
  }

  lemma RemovedMeansAnswered(st0: HandlerState, r: HandlerState, id: nat)
    requires AnsweredSince(st0, r) && id in st0.pending && id !in r.pending
    ensures AnswerFor(id, r.delivered[|st0.delivered|..]).Some?
  {
    var answers := r.delivered[|st0.delivered|..];
    var i :| |st0.delivered| <= i < |r.delivered| && r.delivered[i].id == id;
    assert answers[i - |st0.delivered|].id == id;
  }

  lemma AnsweredMeansRemoved(st0: HandlerState, r: HandlerState, id: nat)
    requires AnsweredSince(st0, r) && AnswerFor(id, r.delivered[|st0.delivered|..]).Some?
    ensures id !in r.pending
  {
    var answers := r.delivered[|st0.delivered|..];
    var i :| 0 <= i < |answers| && answers[i].id == id;
    assert r.delivered[i + |st0.delivered|].id == id;
  }

  /** A waiting request loses its entry exactly when a response for it has been handed over. */
  lemma {:induction false} RemovedIffAnswered(st0: HandlerState, msgs: seq<string>, parse: Parser, id: nat)
    requires id in st0.pending
    ensures var r := HandleAll(st0, msgs, parse);
            id !in r.pending <==> AnswerFor(id, r.delivered[|st0.delivered|..]).Some?
  {
    var r := HandleAll(st0, msgs, parse);
    HandleAllAnswers(st0, msgs, parse);
    if id !in r.pending {
      RemovedMeansAnswered(st0, r, id);
    }
    if AnswerFor(id, r.delivered[|st0.delivered|..]).Some? {
      AnsweredMeansRemoved(st0, r, id);
    }
  }

  /**
   * A request whose entry is never answered stays in the table for as
   * long as the handler runs: nothing but a response with its id removes it.
   */
  lemma {:induction false} UnansweredStaysPending(st0: HandlerState, msgs: seq<string>, parse: Parser, id: nat)
    requires id in st0.pending
    requires forall i :: 0 <= i < |msgs| ==> !(Classify(msgs[i], parse).AsResponse? && Classify(msgs[i], parse).response.id == id)
    ensures id in HandleAll(st0, msgs, parse).pending
  {
    if msgs != [] {
      var prefix := msgs[..|msgs| - 1];
      assert forall i :: 0 <= i < |prefix| ==> prefix[i] == msgs[i];
      UnansweredStaysPending(st0, prefix, parse, id);
    }
  }

  /** `"{code}: {message}"` for a response that carries an error; the response itself otherwise. */
  function RpcOutcome(resp: JsonRpcResponse): (r: Result<JsonRpcResponse, McpError>)
    ensures resp.error.None? <==> r == Ok(resp)
    ensures resp.error.Some? ==>
              (r.Err? && r.error.Protocol?
               && Display(r.error) == "Protocol error: " + IntToString(resp.error.value.code) + ": " + resp.error.value.message)
  {
    if resp.error.Some? then
      var e := Protocol(IntToString(resp.error.value.code) + ": " + resp.error.value.message);
      assert Display(e) == "Protocol error: " + (IntToString(resp.error.value.code) + ": " + resp.error.value.message);
      Err(e)
    else Ok(resp)
  }

  /** `"Request {id} timed out after {ms}ms"` */
  function TimeoutError(id: nat, timeoutMs: nat): (e: McpError)
    ensures e.Timeout? && StartsWith(e.message, "Request ") && EndsWith(e.message, "ms")
    ensures e.message == "Request " + NatToString(id) + " timed out after " + NatToString(timeoutMs) + "ms"
  {
    var m := "Request " + NatToString(id) + " timed out after " + NatToString(timeoutMs) + "ms";
    assert m == "Request " + (NatToString(id) + " timed out after " + NatToString(timeoutMs) + "ms");
    StartsWithAppend("Request ", NatToString(id) + " timed out after " + NatToString(timeoutMs) + "ms");
    EndsWithAppend("Request " + NatToString(id) + " timed out after " + NatToString(timeoutMs), "ms");
    Timeout(m)
  }

  /** The timeout message names its request and its wait: both can be read back from it. */
  lemma TimeoutErrorNamesRequest(id1: nat, ms1: nat, id2: nat, ms2: nat)
    requires TimeoutError(id1, ms1) == TimeoutError(id2, ms2)
    ensures id1 == id2 && ms1 == ms2
  {
    TwoNumbersReadBack("Request ", " timed out after ", "ms", id1, ms1, id2, ms2);
  }

  /** The outcome of the wait: the answer if one was handed over, a timeout otherwise. */
  function WaitOutcome(id: nat, timeoutMs: nat, answers: seq<JsonRpcResponse>): (r: Result<JsonRpcResponse, McpError>)
    ensures AnswerFor(id, answers).None? ==> r == Err(TimeoutError(id, timeoutMs))
    ensures AnswerFor(id, answers).Some? ==> r == RpcOutcome(AnswerFor(id, answers).value)
    ensures r.Ok? ==> r.value.id == id && r.value.error.None?
  {
    match AnswerFor(id, answers)
    case None => Err(TimeoutError(id, timeoutMs))
    case Some(resp) => RpcOutcome(resp)
  }

  /** The handler state a request sees while it waits: its own entry added, then every received message handled. */
  function AfterWait(st: HandlerState, id: nat, incoming: seq<string>, parse: Parser): HandlerState
  {
    HandleAll(st.(pending := st.pending + {id}), incoming, parse)
  }

  /** What `send_request` returns when the send succeeded. */
  function RequestOutcome(st: HandlerState, id: nat, timeoutMs: nat, incoming: seq<string>, parse: Parser): Result<JsonRpcResponse, McpError>
  {
    WaitOutcome(id, timeoutMs, AfterWait(st, id, incoming, parse).delivered[|st.delivered|..])
  }

  /** What `send_request` returns: the transport's error when the send failed, the wait's outcome otherwise. */
  function SendOutcome(st: HandlerState, id: nat, timeoutMs: nat, incoming: seq<string>, parse: Parser,
                       sendError: Option<McpError>): Result<JsonRpcResponse, McpError>
  {
    if sendError.Some? then Err(sendError.value) else RequestOutcome(st, id, timeoutMs, incoming, parse)
  }

  /** A server that never answers: the request times out and its entry is gone. */
  lemma SilentServerTimesOut(st: HandlerState, id: nat, timeoutMs: nat, parse: Parser)
    ensures RequestOutcome(st, id, timeoutMs, [], parse) == Err(TimeoutError(id, timeoutMs))
    ensures AfterWait(st, id, [], parse).pending - {id} == st.pending - {id}
  {
    assert AfterWait(st, id, [], parse).delivered[|st.delivered|..] == [];
  }

  /** `response.result.ok_or_else(|| Protocol("Missing result"))` after the request itself succeeded. */
  function ResultOf(o: Result<JsonRpcResponse, McpError>): (r: Result<Json, McpError>)
    ensures o.Err? ==> r == Err(o.error)
    ensures o.Ok? && o.value.result.None? ==> r == Err(Protocol("Missing result"))
    ensures o.Ok? && o.value.result.Some? ==> r == Ok(o.value.result.value)
  {
    match o
    case Err(e) => Err(e)
    case Ok(resp) => if resp.result.Some? then Ok(resp.result.value) else Err(Protocol("Missing result"))
  }

  /** `serde_json::from_value(..)?`: a value that does not read becomes a `Serialization` error. */
  function ReadResult<T>(res: Result<Json, McpError>, dec: Json -> Option<T>, serdeMessage: string): (r: Result<T, McpError>)
    ensures res.Err? ==> r == Err(res.error)
    ensures res.Ok? && dec(res.value).None? ==> r == Err(Serialization(serdeMessage))
    ensures res.Ok? && dec(res.value).Some? ==> r == Ok(dec(res.value).value)
  {
    match res
    case Err(e) => Err(e)
    case Ok(v) => (match dec(v) case Some(x) => Ok(x) case None => Err(Serialization(serdeMessage)))
  }

  /** `list_tools`' conversion: a tool without a schema gets the empty object. */
  function ToolsFromInfos(infos: seq<McpToolInfo>): (r: seq<McpTool>)
    ensures |r| == |infos|
    ensures forall i :: 0 <= i < |infos| ==> r[i].name == infos[i].name && r[i].description == infos[i].description
    ensures forall i :: 0 <= i < |infos| ==> r[i].parameters == (if infos[i].inputSchema.Some? then infos[i].inputSchema.value else Obj(map[]))
  {
    if infos == [] then []
    else
      var t := infos[0];
      [McpTool(t.name, t.description, if t.inputSchema.Some? then t.inputSchema.value else Obj(map[]))] + ToolsFromInfos(infos[1..])
  }

  /** The connection to one MCP server, as far as the client keeps state. */
  class ProtocolClient {
    /** The id the next request gets. */
    var nextId: nat
    /** Ids of the requests waiting for a response. */
    var pending: set<nat>
    /** The notification channel's queue. */
    var notifications: seq<JsonRpcNotification>
    /** The responses handed over to waiting requests, in order. */
    var delivered: seq<JsonRpcResponse>
    /** Every message written to the transport, in order. */
    var sent: seq<string>
    /** The ids handed out so far. */
    ghost var issued: seq<nat>

    function State(): HandlerState
      reads this`pending, this`notifications, this`delivered
    {
      HandlerState(pending, notifications, delivered)
    }

    /** Ids are handed out as 1, 2, 3, … and every waiting request has one of them. */
    ghost predicate Valid()
      reads this`nextId, this`issued, this`pending
    {
      && nextId >= 1 && |issued| == nextId - 1
      && (forall i :: 0 <= i < |issued| ==> issued[i] == i + 1)
      && (forall id :: id in pending ==> 1 <= id < nextId)
    }

    /** `McpProtocolClient::new`: the first id is 1 and nothing is waiting. */
    constructor()
      ensures Valid() && nextId == 1 && pending == {} && issued == []
      ensures notifications == [] && delivered == [] && sent == []
    {
      nextId := 1;
      pending := {};
      notifications := [];
      delivered := [];
      sent := [];
      issued := [];
    }

    /** `handle_message` */
    method HandleMessage(message: string, parse: Parser) returns (r: Result<(), McpError>)
      modifies this
      ensures State() == Handle(old(State()), message, parse)
      ensures r == HandleResult(message, parse)
      ensures nextId == old(nextId) && sent == old(sent) && issued == old(issued)
    {
      match Classify(message, parse)
      case AsResponse(resp) =>
        if resp.id in pending {
          pending := pending - {resp.id};
          delivered := delivered + [resp];
        }
        r := Ok(());
      case AsNotification(n) =>
        notifications := notifications + [n];
        r := Ok(());
      case Unknown =>
        r := Err(Protocol("Unknown message type"));
    }

    /** The handler loop over the messages received; a message it cannot handle is skipped. */
    method RunHandler(incoming: seq<string>, parse: Parser)
      modifies this
      ensures State() == HandleAll(old(State()), incoming, parse)
      ensures nextId == old(nextId) && sent == old(sent) && issued == old(issued)
    {
      var i := 0;
      while i < |incoming|
        invariant 0 <= i <= |incoming|
        invariant State() == HandleAll(old(State()), incoming[..i], parse)
        invariant nextId == old(nextId) && sent == old(sent) && issued == old(issued)
      {
        assert incoming[..i + 1][..i] == incoming[..i];
        var _ := HandleMessage(incoming[i], parse);
        i := i + 1;
      }
      assert incoming[..i] == incoming;
    }

    /** The first steps of `send_request`: take the next id, register the request, write it to the transport. */
    method Register(methodName: string, params: Option<Json>, serialize: Serializer) returns (id: nat)
      requires Valid()
      modifies this
      ensures Valid()
      ensures id == old(nextId) && id !in old(pending) && nextId == old(nextId) + 1
      ensures issued == old(issued) + [id]
      ensures pending == old(pending) + {id}
      ensures sent == old(sent) + [serialize(EncodeRequest(NewRequest(id, methodName, params)))]
      ensures notifications == old(notifications) && delivered == old(delivered)
    {
      id := nextId;
      nextId := nextId + 1;
      issued := issued + [id];
      pending := pending + {id};
      sent := sent + [serialize(EncodeRequest(NewRequest(id, methodName, params)))];
    }

    /**
     * `send_request` as written: when the transport refuses the request,
     * the error is returned but the request's entry stays in the table.
     */
    method SendRequestAsWritten(methodName: string, params: Option<Json>, timeoutMs: nat, serialize: Serializer,
                                parse: Parser, sendError: Option<McpError>, incoming: seq<string>)
      returns (r: Result<JsonRpcResponse, McpError>)
      requires Valid()
      modifies this
      ensures Valid() && nextId == old(nextId) + 1
      ensures sendError.Some? ==> r == Err(sendError.value) && pending == old(pending) + {old(nextId)}
      ensures sendError.None? ==> r == RequestOutcome(old(State()), old(nextId), timeoutMs, incoming, parse)
    {
      var id := Register(methodName, params, serialize);
      if sendError.Some? {
        return Err(sendError.value);
      }
      r := Wait(id, timeoutMs, parse, incoming);
    }

    /**
     * `send_request`: register, send, then wait for the response with the
     * request's id. A timeout removes the entry; so does a failed send,
     * which the code as written forgets.
     */
    method SendRequest(methodName: string, params: Option<Json>, timeoutMs: nat, serialize: Serializer,
                       parse: Parser, sendError: Option<McpError>, incoming: seq<string>)
      returns (r: Result<JsonRpcResponse, McpError>)
      requires Valid()
      modifies this
      ensures Valid() && nextId == old(nextId) + 1 && issued == old(issued) + [old(nextId)]
      ensures sent == old(sent) + [serialize(EncodeRequest(NewRequest(old(nextId), methodName, params)))]
      ensures r == SendOutcome(old(State()), old(nextId), timeoutMs, incoming, parse, sendError)
      ensures sendError.Some? ==> r == Err(sendError.value) && pending == old(pending)
      ensures sendError.None? ==>
                var st := AfterWait(old(State()), old(nextId), incoming, parse);
                && r == RequestOutcome(old(State()), old(nextId), timeoutMs, incoming, parse)
                && pending == st.pending - {old(nextId)}
                && notifications == st.notifications && delivered == st.delivered
    {
      var id := Register(methodName, params, serialize);
      if sendError.Some? {
        pending := pending - {id};
        return Err(sendError.value);
      }
      r := Wait(id, timeoutMs, parse, incoming);
    }

    /** The wait: the handler runs over what arrives; without an answer the entry is dropped and the request times out. */
    method Wait(id: nat, timeoutMs: nat, parse: Parser, incoming: seq<string>) returns (r: Result<JsonRpcResponse, McpError>)
      requires Valid() && id in pending && id == nextId - 1
      modifies this
      ensures Valid() && nextId == old(nextId) && issued == old(issued) && sent == old(sent)
      ensures var st := HandleAll(old(State()), incoming, parse);
              && r == WaitOutcome(id, timeoutMs, st.delivered[|old(delivered)|..])
              && pending == st.pending - {id}
              && notifications == st.notifications && delivered == st.delivered
    {
      var before := |delivered|;
      ghost var st0 := State();
      RunHandler(incoming, parse);
      HandleAllAnswers(st0, incoming, parse);
      var answer := AnswerFor(id, delivered[before..]);
      pending := pending - {id};
      r := WaitOutcome(id, timeoutMs, delivered[before..]);
      assert pending <= st0.pending;
    }

    /** `initialize`: the handshake, then the `notifications/initialized` notification. */
    method Initialize(crateVersion: string, timeoutMs: nat, serialize: Serializer, parse: Parser,
                      sendError: Option<McpError>, incoming: seq<string>,
                      notifySendError: Option<McpError>, serdeMessage: string)
      returns (r: Result<McpInitializeResult, McpError>)
      requires Valid()
      modifies this
      ensures Valid() && nextId == old(nextId) + 1
      ensures var params := EncodeInitializeRequest(DefaultInitializeRequest(crateVersion));
              var request := serialize(EncodeRequest(NewRequest(old(nextId), "initialize", Some(params))));
              var read := ReadResult(ResultOf(SendOutcome(old(State()), old(nextId), timeoutMs, incoming, parse, sendError)),
                                     DecodeInitializeResult, serdeMessage);
              && (read.Err? ==> r == read && sent == old(sent) + [request])
              && (read.Ok? ==> sent == old(sent) + [request] + [serialize(EncodeNotification(InitializedNotification()))]
                               && r == (if notifySendError.Some? then Err(notifySendError.value) else read))
    {
      var params := EncodeInitializeRequest(DefaultInitializeRequest(crateVersion));
      var response := SendRequest("initialize", Some(params), timeoutMs, serialize, parse, sendError, incoming);
      r := ReadResult(ResultOf(response), DecodeInitializeResult, serdeMessage);
      if r.Err? {
        return;
      }
      var notification := serialize(EncodeNotification(InitializedNotification()));
      sent := sent + [notification];
      if notifySendError.Some? {
        r := Err(notifySendError.value);
      }
    }

    /** `list_tools` */
    method ListTools(timeoutMs: nat, serialize: Serializer, parse: Parser, sendError: Option<McpError>,
                     incoming: seq<string>, serdeMessage: string)
      returns (r: Result<seq<McpTool>, McpError>)
      requires Valid()
      modifies this
      ensures Valid() && nextId == old(nextId) + 1
      ensures sent == old(sent) + [serialize(EncodeRequest(NewRequest(old(nextId), "tools/list", None)))]
      ensures var read := ReadResult(ResultOf(SendOutcome(old(State()), old(nextId), timeoutMs, incoming, parse, sendError)),
                                     DecodeToolList, serdeMessage);
              && (read.Err? ==> r == Err(read.error))
              && (read.Ok? ==> r == Ok(ToolsFromInfos(read.value)))
    {
      var response := SendRequest("tools/list", None, timeoutMs, serialize, parse, sendError, incoming);
      var read := ReadResult(ResultOf(response), DecodeToolList, serdeMessage);
      if read.Err? {
        return Err(read.error);
      }
      r := Ok(ToolsFromInfos(read.value));
    }

    /** `call_tool`: the name and the arguments as `tools/call` params. */
    method CallTool(name: string, arguments: Json, timeoutMs: nat, serialize: Serializer, parse: Parser,
                    sendError: Option<McpError>, incoming: seq<string>, serdeMessage: string)
      returns (r: Result<McpCallResult, McpError>)
      requires Valid()
      modifies this
      ensures Valid() && nextId == old(nextId) + 1
      ensures var params := EncodeToolCallRequest(McpToolCallRequest(name, Some(arguments)));
              sent == old(sent) + [serialize(EncodeRequest(NewRequest(old(nextId), "tools/call", Some(params))))]
      ensures r == ReadResult(ResultOf(SendOutcome(old(State()), old(nextId), timeoutMs, incoming, parse, sendError)),
                              DecodeToolCallResult, serdeMessage)
    {
      var params := EncodeToolCallRequest(McpToolCallRequest(name, Some(arguments)));
      var response := SendRequest("tools/call", Some(params), timeoutMs, serialize, parse, sendError, incoming);
      r := ReadResult(ResultOf(response), DecodeToolCallResult, serdeMessage);
    }

    /** `ping`: any answer without an error will do. */
    method Ping(timeoutMs: nat, serialize: Serializer, parse: Parser, sendError: Option<McpError>, incoming: seq<string>)
      returns (r: Result<(), McpError>)
      requires Valid()
      modifies this
      ensures Valid() && nextId == old(nextId) + 1
      ensures var o := SendOutcome(old(State()), old(nextId), timeoutMs, incoming, parse, sendError);
              (o.Ok? <==> r.Ok?) && (o.Err? ==> r == Err(o.error))
    {
      var response := SendRequest("ping", None, timeoutMs, serialize, parse, sendError, incoming);
      if response.Err? {
        return Err(response.error);
      }
      r := Ok(());
    }
  }
}
