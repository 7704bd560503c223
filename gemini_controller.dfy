// The Gemini-compatible endpoints
// (crates/web_service/src/controllers/gemini_controller.rs): folding the
// provider's chunk stream into one response, the per-chunk events of the
// streaming endpoint, the flattening of tool declarations, the model list
// and the fallback when the model mapping cannot be resolved. The provider
// stream, the mapping lookup and JSON parsing of tool arguments are
// parameters.
module GeminiController {
  import opened Wrappers
  import opened Strings
  import opened JsonValue
  import opened ToolTypes
  import opened AppErrors
  import SeqUtil

  /** What the provider's stream yields. */
  datatype LlmChunk = Token(text: string) | ToolCalls(calls: seq<ToolCall>) | Done

  /** One stream item: a chunk, or the stream's error message. */
  type StreamItem = Result<LlmChunk, string>

  datatype GeminiFunctionCall = GeminiFunctionCall(name: string, args: Json)

  /** A response part; `function_response` is never set by these endpoints and is left out. */
  datatype GeminiPart = GeminiPart(text: Option<string>, functionCall: Option<GeminiFunctionCall>)

  datatype GeminiCandidate = GeminiCandidate(role: string, parts: seq<GeminiPart>, finishReason: Option<string>)

  datatype GeminiResponse = GeminiResponse(candidates: seq<GeminiCandidate>)

  /** A single `model` candidate with the given parts. */
  function ModelResponse(parts: seq<GeminiPart>, finishReason: Option<string>): (r: GeminiResponse)
    ensures |r.candidates| == 1 && r.candidates[0].role == "model"
    ensures r.candidates[0].parts == parts && r.candidates[0].finishReason == finishReason
  {
    GeminiResponse([GeminiCandidate("model", parts, finishReason)])
  }

  // ------------------------------------------------------------------ model mapping

  datatype ModelResolution = ModelResolution(mappedModel: string, responseModel: string)

  /** A failed mapping lookup is logged and replaced by an empty mapping that answers as the requested model. */
  function ResolveOrDefault(lookup: Result<ModelResolution, string>, requested: string): (r: ModelResolution)
    ensures lookup.Ok? ==> r == lookup.value
    ensures lookup.Err? ==> r.mappedModel == [] && r.responseModel == requested
  {
    match lookup
    case Ok(res) => res
    case Err(_) => ModelResolution([], requested)
  }

  /** The model passed to the provider: none (its default) when the mapping is empty. */
  function ModelOverride(res: ModelResolution): (r: Option<string>)
    ensures r.None? <==> res.mappedModel == []
    ensures r.Some? ==> r.value == res.mappedModel
  {
    if res.mappedModel == [] then None else Some(res.mappedModel)
  }

  /** A failed lookup never overrides the provider's model. */
  lemma FailedLookupUsesDefault(e: string, requested: string)
    ensures ModelOverride(ResolveOrDefault(Err(e), requested)).None?
  {
  }

  // ------------------------------------------------------------------ non-streaming fold

  /** The text gathered so far and the latest tool calls. */
  datatype Collected = Collected(text: string, toolCalls: Option<seq<ToolCall>>)

  /** The collection loop from `acc` on: tokens append, tool calls replace, `Done` stops, an error aborts. */
  function Fold(acc: Collected, items: seq<StreamItem>): (r: Result<Collected, AppError>)
    ensures r.Ok? ==> StartsWith(r.value.text, acc.text)
    ensures r.Err? ==> exists i :: 0 <= i < |items| && items[i].Err? && r.error == InternalError("Stream error: " + items[i].error)
    ensures (forall i :: 0 <= i < |items| ==> items[i].Ok?) ==> r.Ok?
    decreases |items|
  {
    if items == [] then Ok(acc)
    else match items[0]
      case Err(e) => Err(InternalError("Stream error: " + e))
      case Ok(Done) => Ok(acc)
      case Ok(Token(t)) => Fold(acc.(text := acc.text + t), items[1..])
      case Ok(ToolCalls(calls)) => Fold(acc.(toolCalls := Some(calls)), items[1..])
  }

  /** The collection loop of `generate_content`. */
  method CollectStream(items: seq<StreamItem>) returns (r: Result<Collected, AppError>)
    ensures r == Fold(Collected("", None), items)
  {
    var fullContent := "";
    var toolCalls: Option<seq<ToolCall>> := None;
    var i := 0;
    while i < |items|
      invariant 0 <= i <= |items|
      invariant Fold(Collected(fullContent, toolCalls), items[i..]) == Fold(Collected("", None), items)
    {
      assert items[i..][0] == items[i] && items[i..][1..] == items[i + 1..];
      match items[i] {
        case Err(e) => return Err(InternalError("Stream error: " + e));
        case Ok(Done) => break;
        case Ok(Token(t)) => fullContent := fullContent + t;
        case Ok(ToolCalls(calls)) => toolCalls := Some(calls);
      }
      i := i + 1;
    }
    r := Ok(Collected(fullContent, toolCalls));
  }

  /** Where the stream stops being read: at the first `Done` or error, else at its end. */
  function StopAt(items: seq<StreamItem>): (k: nat)
    ensures k <= |items|
    ensures forall j :: 0 <= j < k ==> items[j].Ok? && !items[j].value.Done?
    ensures k < |items| ==> items[k].Err? || items[k].value.Done?
  {
    if items == [] || items[0].Err? || items[0].value.Done? then 0 else 1 + StopAt(items[1..])
  }

  /** The texts of the token chunks, in order. */
  function Tokens(items: seq<StreamItem>): string
  {
    if items == [] then ""
    else (if items[0].Ok? && items[0].value.Token? then items[0].value.text else "") + Tokens(items[1..])
  }

  /** The last tool-call chunk's calls. */
  function LastCalls(items: seq<StreamItem>): Option<seq<ToolCall>>
  {
    if items == [] then None
    else if LastCalls(items[1..]).Some? then LastCalls(items[1..])
    else if items[0].Ok? && items[0].value.ToolCalls? then Some(items[0].value.calls)
    else None
  }

  /**
   * The non-streaming text is every token before the first `Done`, in
   * order, and the tool calls are those of the last tool-call chunk before
   * it; an error before `Done` fails the request.
   */
  /** A non-empty prefix is its first item followed by the matching prefix of the rest. */
  lemma PrefixStep(items: seq<StreamItem>, k: nat)
    requires 0 < k <= |items|
    ensures Tokens(items[..k]) == (if items[0].Ok? && items[0].value.Token? then items[0].value.text else "") + Tokens(items[1..][..k - 1])
    ensures LastCalls(items[..k]) == (if LastCalls(items[1..][..k - 1]).Some? then LastCalls(items[1..][..k - 1])
                                      else if items[0].Ok? && items[0].value.ToolCalls? then Some(items[0].value.calls) else None)
  {
    assert items[..k][0] == items[0] && items[..k][1..] == items[1..][..k - 1];
  }

  lemma {:induction false} FoldMeaning(acc: Collected, items: seq<StreamItem>)
    ensures var k := StopAt(items);
            && (k < |items| && items[k].Err? ==> Fold(acc, items) == Err(InternalError("Stream error: " + items[k].error)))
            && (k == |items| || items[k].Ok? ==>
                  Fold(acc, items) == Ok(Collected(acc.text + Tokens(items[..k]),
                                                   if LastCalls(items[..k]).Some? then LastCalls(items[..k]) else acc.toolCalls)))
    decreases |items|
  {
    var k := StopAt(items);
    if items != [] && k > 0 {
      var next := match items[0].value
        case Token(t) => acc.(text := acc.text + t)
        case ToolCalls(calls) => acc.(toolCalls := Some(calls))
        case Done => acc;
      FoldMeaning(next, items[1..]);
      PrefixStep(items, k);
      var rest := items[1..][..k - 1];
      assert StopAt(items[1..]) == k - 1;
      if items[0].value.Token? {
        AppendAssoc(acc.text, items[0].value.text, Tokens(rest));
      } else {
        assert Tokens(items[..k]) == Tokens(rest);
      }
    } else {
      assert items[..k] == [];
      assert acc.text + Tokens([]) == acc.text;
    }
  }

  /** A tool argument string that is not valid JSON becomes `{}`. */
  function ArgsOf(arguments: string, parse: Parser): (r: Json)
    ensures parse(arguments).None? ==> r == Obj(map[])
    ensures parse(arguments).Some? ==> r == parse(arguments).value
  {
    parse(arguments).UnwrapOr(Obj(map[]))
  }

  function CallPart(call: ToolCall, parse: Parser): GeminiPart
  {
    GeminiPart(None, Some(GeminiFunctionCall(call.fn.name, ArgsOf(call.fn.arguments, parse))))
  }

  /**
   * The parts of the non-streaming response: a text part (empty when there
   * is nothing at all) unless there are tool calls and no text, then one
   * function-call part per call, in order.
   */
  predicate PartsFor(parts: seq<GeminiPart>, fullContent: string, toolCalls: Option<seq<ToolCall>>, parse: Parser)
  {
    && (toolCalls.None? ==> parts == [GeminiPart(Some(fullContent), None)])
    && (toolCalls.Some? ==>
          && |parts| == (if fullContent == [] then 0 else 1) + |toolCalls.value|
          && (fullContent != [] ==> parts[0] == GeminiPart(Some(fullContent), None))
          && var offset := if fullContent == [] then 0 else 1;
             forall j :: 0 <= j < |toolCalls.value| ==> parts[offset + j] == CallPart(toolCalls.value[j], parse))
  }

  /** Step 6 of `generate_content`. */
  method BuildParts(fullContent: string, toolCalls: Option<seq<ToolCall>>, parse: Parser) returns (parts: seq<GeminiPart>)
    ensures PartsFor(parts, fullContent, toolCalls, parse)
  {
    var first := if fullContent == [] && toolCalls.None? then Some("")
                 else if fullContent == [] then None
                 else Some(fullContent);
    parts := [GeminiPart(first, None)];
    if toolCalls.Some? {
      var calls := toolCalls.value;
      if parts[0].text.None? || parts[0].text.value == [] {
        parts := [];
      }
      ghost var offset := |parts|;
      for j := 0 to |calls|
        invariant |parts| == offset + j
        invariant offset == (if fullContent == [] then 0 else 1)
        invariant fullContent != [] ==> parts[0] == GeminiPart(Some(fullContent), None)
        invariant forall m :: 0 <= m < j ==> parts[offset + m] == CallPart(calls[m], parse)
      {
        parts := parts + [CallPart(calls[j], parse)];
      }
    }
  }

  /**
   * `convert_gemini_to_messages`: the first content the message conversion
   * rejects fails the request. `convert` stands for `Message::from_provider`.
   */
  function ConvertMessages<C, M>(contents: seq<C>, convert: C -> Result<M, string>): (r: Result<seq<M>, AppError>)
    ensures r.Ok? ==> |r.value| == |contents| && forall i :: 0 <= i < |contents| ==> convert(contents[i]) == Ok(r.value[i])
    ensures r.Err? ==> exists i :: 0 <= i < |contents| && convert(contents[i]).Err?
                         && (forall j :: 0 <= j < i ==> convert(contents[j]).Ok?)
                         && r.error == ToolExecutionError("Failed to convert message: " + convert(contents[i]).error)
  {
    if contents == [] then Ok([])
    else match convert(contents[0])
      case Err(e) => Err(ToolExecutionError("Failed to convert message: " + e))
      case Ok(m) =>
        match ConvertMessages(contents[1..], convert)
        case Err(e) =>
          ghost var i :| 0 <= i < |contents[1..]| && convert(contents[1..][i]).Err?
                         && (forall j :: 0 <= j < i ==> convert(contents[1..][j]).Ok?)
                         && e == ToolExecutionError("Failed to convert message: " + convert(contents[1..][i]).error);
          assert contents[1..][i] == contents[i + 1];
          assert forall j :: 1 <= j < i + 1 ==> contents[j] == contents[1..][j - 1];
          Err(e)
        case Ok(ms) => Ok([m] + ms)
  }

  /**
   * `generate_content` from the message conversion on: `converted` is that
   * conversion's outcome, `provider` the stream the provider opened, or its
   * error.
   */
  method GenerateContent<M>(converted: Result<seq<M>, AppError>, provider: Result<seq<StreamItem>, string>, parse: Parser)
    returns (r: Result<GeminiResponse, AppError>)
    ensures converted.Err? ==> r == Err(converted.error)
    ensures converted.Ok? && provider.Err? ==> r == Err(InternalError("Provider error: " + provider.error))
    ensures converted.Ok? && provider.Ok? ==>
              var folded := Fold(Collected("", None), provider.value);
              && (folded.Err? ==> r == Err(folded.error))
              && (folded.Ok? ==> r.Ok? && |r.value.candidates| == 1 && r.value.candidates[0].role == "model"
                                 && r.value.candidates[0].finishReason == Some("STOP")
                                 && PartsFor(r.value.candidates[0].parts, folded.value.text, folded.value.toolCalls, parse))
  {
    if converted.Err? {
      return Err(converted.error);
    }
    if provider.Err? {
      return Err(InternalError("Provider error: " + provider.error));
    }
    var collected := CollectStream(provider.value);
    if collected.Err? {
      return Err(collected.error);
    }
    var parts := BuildParts(collected.value.text, collected.value.toolCalls, parse);
    r := Ok(ModelResponse(parts, Some("STOP")));
  }

  /**
   * The case of the endpoint's own test: a token then one tool call give a
   * text part followed by the function-call part.
   */
  lemma TextThenCallParts(parts: seq<GeminiPart>, text: string, call: ToolCall, parse: Parser)
    requires text != [] && PartsFor(parts, text, Some([call]), parse)
    ensures parts == [GeminiPart(Some(text), None), CallPart(call, parse)]
  {
    var calls := Some([call]).value;
    assert calls[0] == call;
    assert parts[1 + 0] == CallPart(calls[0], parse);
  }

  /** Tool calls with no text at all leave only function-call parts; calls with no entries leave no parts. */
  lemma CallsWithoutText(parts: seq<GeminiPart>, calls: seq<ToolCall>, parse: Parser)
    requires PartsFor(parts, "", Some(calls), parse)
    ensures forall p :: p in parts ==> p.text.None? && p.functionCall.Some?
    ensures calls == [] ==> parts == []
  {
    forall p | p in parts
      ensures p.text.None? && p.functionCall.Some?
    {
      var j :| 0 <= j < |parts| && parts[j] == p;
      assert parts[0 + j] == CallPart(calls[j], parse);
    }
  }

  // ------------------------------------------------------------------ streaming

  /** The last event of a stream that ended normally: no parts, finish reason `STOP`. */
  function FinalChunk(): GeminiResponse
  {
    ModelResponse([], Some("STOP"))
  }

  /** One event per tool call, each with a single function-call part. */
  function CallEvents(calls: seq<ToolCall>, parse: Parser): (r: seq<Result<GeminiResponse, string>>)
    ensures |r| == |calls|
    ensures forall j :: 0 <= j < |calls| ==> r[j] == Ok(ModelResponse([CallPart(calls[j], parse)], None))
  {
    SeqUtil.Map(calls, (c: ToolCall) => Ok(ModelResponse([CallPart(c, parse)], None)))
  }

  /**
   * The events `stream_generate_content` sends: a text event per token, an
   * event per tool call, and on `Done` the final chunk; an error is sent as
   * an error; both end the stream.
   */
  function StreamEvents(items: seq<StreamItem>, parse: Parser): (r: seq<Result<GeminiResponse, string>>)
    ensures forall j :: 0 <= j < |r| && r[j].Ok? ==>
              |r[j].value.candidates| == 1 && r[j].value.candidates[0].role == "model"
    ensures forall j :: 0 <= j < |r| - 1 ==> r[j].Ok? && r[j].value.candidates[0].finishReason.None?
  {
    if items == [] then []
    else match items[0]
      case Err(e) => [Err("Stream error: " + e)]
      case Ok(Done) => [Ok(FinalChunk())]
      case Ok(Token(t)) => [Ok(ModelResponse([GeminiPart(Some(t), None)], None))] + StreamEvents(items[1..], parse)
      case Ok(ToolCalls(calls)) => CallEvents(calls, parse) + StreamEvents(items[1..], parse)
  }

  /** Nothing after `Done` is streamed, and `Done` yields exactly one final chunk. */
  lemma {:induction false} StreamEndsAtDone(pre: seq<StreamItem>, post: seq<StreamItem>, parse: Parser)
    requires StopAt(pre) == |pre|
    ensures StreamEvents(pre + [Ok(Done)] + post, parse) == StreamEvents(pre, parse) + [Ok(FinalChunk())]
  {
    if pre != [] {
      StreamEndsAtDone(pre[1..], post, parse);
      assert (pre + [Ok(Done)] + post)[1..] == pre[1..] + [Ok(Done)] + post;
    } else {
      assert pre + [Ok(Done)] + post == [Ok(Done)] + post;
    }
  }

  /** The text carried by an event's parts. */
  function EventText(ev: Result<GeminiResponse, string>): string
  {
    if ev.Ok? && |ev.value.candidates| > 0 then PartsText(ev.value.candidates[0].parts) else ""
  }

  function PartsText(parts: seq<GeminiPart>): string
  {
    if parts == [] then "" else parts[0].text.UnwrapOr("") + PartsText(parts[1..])
  }

  function StreamedText(events: seq<Result<GeminiResponse, string>>): string
  {
    if events == [] then "" else EventText(events[0]) + StreamedText(events[1..])
  }

  lemma {:induction false} StreamedTextConcat(a: seq<Result<GeminiResponse, string>>, b: seq<Result<GeminiResponse, string>>)
    ensures StreamedText(a + b) == StreamedText(a) + StreamedText(b)
  {
    if a != [] {
      StreamedTextConcat(a[1..], b);
      assert (a + b)[1..] == a[1..] + b;
    } else {
      assert a + b == b;
    }
  }

  lemma {:induction false} CallEventsCarryNoText(calls: seq<ToolCall>, parse: Parser)
    ensures StreamedText(CallEvents(calls, parse)) == ""
  {
    var evs := CallEvents(calls, parse);
    if calls != [] {
      CallEventsCarryNoText(calls[1..], parse);
      assert evs == [evs[0]] + CallEvents(calls[1..], parse);
      StreamedTextConcat([evs[0]], CallEvents(calls[1..], parse));
      assert PartsText([CallPart(calls[0], parse)]) == "";
    }
  }

  /** A token chunk streams exactly its text ahead of the rest. */
  lemma TokenStreamsText(items: seq<StreamItem>, parse: Parser)
    requires items != [] && items[0].Ok? && items[0].value.Token?
    ensures StreamedText(StreamEvents(items, parse)) == items[0].value.text + StreamedText(StreamEvents(items[1..], parse))
  {
    var t := items[0].value.text;
    var head: Result<GeminiResponse, string> := Ok(ModelResponse([GeminiPart(Some(t), None)], None));
    var rest := StreamEvents(items[1..], parse);
    assert StreamEvents(items, parse) == [head] + rest;
    StreamedTextConcat([head], rest);
    assert PartsText([GeminiPart(Some(t), None)]) == t + PartsText([]);
    assert EventText(head) == t;
    assert StreamedText([head]) == EventText(head) + StreamedText([]);
  }

  /** A tool-call chunk streams no text ahead of the rest. */
  lemma CallsStreamNoText(items: seq<StreamItem>, parse: Parser)
    requires items != [] && items[0].Ok? && items[0].value.ToolCalls?
    ensures StreamedText(StreamEvents(items, parse)) == StreamedText(StreamEvents(items[1..], parse))
  {
    var calls := items[0].value.calls;
    assert StreamEvents(items, parse) == CallEvents(calls, parse) + StreamEvents(items[1..], parse);
    StreamedTextConcat(CallEvents(calls, parse), StreamEvents(items[1..], parse));
    CallEventsCarryNoText(calls, parse);
  }

  /** The streamed text, read in order, is the text the non-streaming endpoint returns. */
  lemma {:induction false} StreamAgreesWithFold(acc: Collected, items: seq<StreamItem>, parse: Parser)
    requires Fold(acc, items).Ok?
    ensures Fold(acc, items).value.text == acc.text + StreamedText(StreamEvents(items, parse))
    decreases |items|
  {
    if items != [] {
      match items[0]
      case Err(_) =>
      case Ok(Done) =>
        assert PartsText([]) == "";
      case Ok(Token(t)) =>
        StreamAgreesWithFold(acc.(text := acc.text + t), items[1..], parse);
        TokenStreamsText(items, parse);
      case Ok(ToolCalls(calls)) =>
        StreamAgreesWithFold(acc.(toolCalls := Some(calls)), items[1..], parse);
        CallsStreamNoText(items, parse);
    }
  }

  // ------------------------------------------------------------------ tools and models

  datatype FunctionDeclaration = FunctionDeclaration(name: string, description: Option<string>, parameters: Json)

  datatype GeminiTool = GeminiTool(functionDeclarations: seq<FunctionDeclaration>)

  /** A declaration as a tool schema; a missing description becomes empty. */
  function SchemaOfDeclaration(d: FunctionDeclaration): (s: ToolSchema)
    ensures s.schemaType == "function" && s.fn.name == d.name && s.fn.parameters == d.parameters
    ensures s.fn.description == (if d.description.Some? then d.description.value else "")
  {
    ToolSchema("function", FunctionSchema(d.name, d.description.UnwrapOr(""), d.parameters))
  }

  /** All declarations of all tools, in order. */
  function Flattened(tools: seq<GeminiTool>): (r: seq<ToolSchema>)
    ensures forall s :: s in r ==> s.schemaType == "function"
  {
    if tools == [] then []
    else SeqUtil.Map(tools[0].functionDeclarations, SchemaOfDeclaration) + Flattened(tools[1..])
  }

  /** Flattening distributes over concatenation. */
  lemma {:induction false} FlattenedConcat(a: seq<GeminiTool>, b: seq<GeminiTool>)
    ensures Flattened(a + b) == Flattened(a) + Flattened(b)
  {
    if a != [] {
      FlattenedConcat(a[1..], b);
      assert (a + b)[0] == a[0];
      assert (a + b)[1..] == a[1..] + b;
    } else {
      assert a + b == b;
    }
  }

  /** The inner loop of `convert_gemini_tools`: one schema per declaration of a tool, appended. */
  method AppendDeclarations(schemas: seq<ToolSchema>, decls: seq<FunctionDeclaration>) returns (r: seq<ToolSchema>)
    ensures r == schemas + SeqUtil.Map(decls, SchemaOfDeclaration)
  {
    r := schemas;
    for j := 0 to |decls|
      invariant r == schemas + SeqUtil.Map(decls[..j], SchemaOfDeclaration)
    {
      assert SeqUtil.Map(decls[..j + 1], SchemaOfDeclaration) == SeqUtil.Map(decls[..j], SchemaOfDeclaration) + [SchemaOfDeclaration(decls[j])];
      r := r + [SchemaOfDeclaration(decls[j])];
    }
    assert decls[..|decls|] == decls;
  }

  /** `convert_gemini_tools` */
  method ConvertGeminiTools(tools: Option<seq<GeminiTool>>) returns (schemas: seq<ToolSchema>)
    ensures tools.None? ==> schemas == []
    ensures tools.Some? ==> schemas == Flattened(tools.value)
  {
    schemas := [];
    if tools.None? {
      return;
    }
    var ts := tools.value;
    for i := 0 to |ts|
      invariant schemas == Flattened(ts[..i])
    {
      schemas := AppendDeclarations(schemas, ts[i].functionDeclarations);
      FlattenedConcat(ts[..i], [ts[i]]);
      assert ts[..i + 1] == ts[..i] + [ts[i]];
      assert Flattened([ts[i]]) == SeqUtil.Map(ts[i].functionDeclarations, SchemaOfDeclaration) + Flattened([]);
    }
    assert ts[..|ts|] == ts;
  }

  /** One entry of the model list. */
  function ModelEntry(name: string): (r: Json)
    ensures GetStr(r, "name") == Some("models/" + name) && GetStr(r, "displayName") == Some(name)
  {
    Obj(map["name" := Str("models/" + name), "displayName" := Str(name),
            "supportedGenerationMethods" := Arr([Str("generateContent"), Str("streamGenerateContent")])])
  }

  /** `list_models`: the provider's model names, or its error. */
  function ListModels(provider: Result<seq<string>, string>): (r: Result<Json, AppError>)
    ensures provider.Err? ==> r == Err(InternalError("Failed to list models: " + provider.error))
    ensures provider.Ok? ==> r.Ok? && Get(r.value, "models").Some? && Get(r.value, "models").value.Arr?
    ensures provider.Ok? ==>
              var entries := Get(r.value, "models").value.items;
              && |entries| == |provider.value|
              && forall i :: 0 <= i < |entries| ==> GetStr(entries[i], "displayName") == Some(provider.value[i])
    ensures provider.Ok? ==> forall i :: 0 <= i < |provider.value| ==> Get(r.value, "models").value.items[i] == ModelEntry(provider.value[i])
  {
    match provider
    case Err(e) => Err(InternalError("Failed to list models: " + e))
    case Ok(names) => Ok(Obj(map["models" := Arr(SeqUtil.Map(names, ModelEntry))]))
  }

  /** Each listed name is the model name under the `models/` prefix, so the prefix can be stripped back off. */
  lemma ModelNameRoundTrip(name: string)
    ensures var full := GetStr(ModelEntry(name), "name").value;
            StartsWith(full, "models/") && full[|"models/"|..] == name
  {
    StartsWithAppend("models/", name);
  }
}
