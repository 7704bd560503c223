// The chat endpoint of the agent server (crates/agent-server/src/handlers/chat.rs):
// request validation, assembly of the system prompt, the "one system
// message, first" rule on the session's history, and the update of the
// in-memory session table. Storage, the id generator and the two prompt
// constants are inputs.
module ChatHandler {
  import opened Wrappers
  import opened Strings

  datatype Role = System | User | Assistant | Tool

  datatype Message = Message(role: Role, content: string)

  /** The part of `agent_core::Session` the handler touches. */
  datatype Session = Session(id: string, model: string, messages: seq<Message>)

  /** `Session::new(id, model)`: an empty history. */
  function NewSession(id: string, model: string): (s: Session)
    ensures s.id == id && s.model == model && s.messages == []
  {
    Session(id, model, [])
  }

  /** The messages that are not system messages, in order (`retain`). */
  function NonSystem(ms: seq<Message>): (r: seq<Message>)
    ensures |r| <= |ms|
    ensures forall i :: 0 <= i < |r| ==> r[i].role != System && r[i] in ms
    ensures (forall i :: 0 <= i < |ms| ==> ms[i].role != System) ==> r == ms
  {
    if ms == [] then []
    else if ms[0].role == System then NonSystem(ms[1..])
    else [ms[0]] + NonSystem(ms[1..])
  }

  /** Number of system messages. */
  function CountSystem(ms: seq<Message>): (n: nat)
    ensures n <= |ms|
    ensures n == 0 <==> forall i :: 0 <= i < |ms| ==> ms[i].role != System
  {
    if ms == [] then 0
    else (if ms[0].role == System then 1 else 0) + CountSystem(ms[1..])
  }

  lemma {:induction false} NonSystemAppend(a: seq<Message>, b: seq<Message>)
    ensures NonSystem(a + b) == NonSystem(a) + NonSystem(b)
  {
    if a == [] {
      assert a + b == b;
    } else {
      assert (a + b)[0] == a[0];
      assert (a + b)[1..] == a[1..] + b;
      NonSystemAppend(a[1..], b);
    }
  }

  /**
   * `upsert_system_prompt_message`: the history after every system message
   * is dropped and the new one is put first. There is exactly one system
   * message, at index 0, and the other messages keep their order.
   */
  function UpsertSystemPrompt(ms: seq<Message>, prompt: string): (r: seq<Message>)
    ensures |r| >= 1 && r[0] == Message(System, prompt)
    ensures CountSystem(r) == 1
    ensures forall i :: 1 <= i < |r| ==> r[i].role != System
    ensures r[1..] == NonSystem(ms)
    ensures NonSystem(r) == NonSystem(ms)
  {
    var rest := NonSystem(ms);
    var r := [Message(System, prompt)] + rest;
    assert r[1..] == rest;
    assert NonSystem(r) == NonSystem(r[1..]);
    assert CountSystem(r) == 1 + CountSystem(r[1..]);
    r
  }

  /** Upserting twice leaves what the second upsert alone leaves. */
  lemma UpsertTwice(ms: seq<Message>, p: string, q: string)
    ensures UpsertSystemPrompt(UpsertSystemPrompt(ms, p), q) == UpsertSystemPrompt(ms, q)
  {
  }

  /** The section a non-blank workspace path adds to the system prompt. */
  function WorkspaceSection(path: string, guidance: string): string
  {
    "\n\nWorkspace path: " + path + "\n" + guidance
  }

  /**
   * `build_enhanced_system_prompt`: the base prompt, then a non-blank
   * enhancement after a blank line, then the section of a non-blank
   * workspace path.
   */
  function BuildEnhancedSystemPrompt(base: string, enhance: Option<string>, workspace: Option<string>,
                                     guidance: string): (r: string)
    ensures |r| >= |base| && r[..|base|] == base
  {
    var withEnhancement := WithEnhancement(base, enhance);
    if workspace.Some? && !IsBlank(workspace.value) then withEnhancement + WorkspaceSection(Trim(workspace.value), guidance)
    else withEnhancement
  }

  /** The base prompt followed by a non-blank enhancement. */
  function WithEnhancement(base: string, enhance: Option<string>): (r: string)
    ensures |r| >= |base| && r[..|base|] == base
  {
    if enhance.Some? && !IsBlank(enhance.value) then base + "\n\n" + Trim(enhance.value) else base
  }

  /** With no non-blank enhancement and no non-blank workspace the base prompt comes back unchanged. */
  lemma PromptWithoutExtras(base: string, enhance: Option<string>, workspace: Option<string>, guidance: string)
    requires enhance.None? || IsBlank(enhance.value)
    requires workspace.None? || IsBlank(workspace.value)
    ensures BuildEnhancedSystemPrompt(base, enhance, workspace, guidance) == base
  {
  }

  /** A non-blank enhancement follows the base prompt directly, trimmed and after a blank line. */
  lemma PromptEnhancementFirst(base: string, enhance: string, workspace: Option<string>, guidance: string)
    requires !IsBlank(enhance)
    ensures StartsWith(BuildEnhancedSystemPrompt(base, Some(enhance), workspace, guidance), base + "\n\n" + Trim(enhance))
    ensures workspace.None? || IsBlank(workspace.value) ==>
              BuildEnhancedSystemPrompt(base, Some(enhance), workspace, guidance) == base + "\n\n" + Trim(enhance)
  {
    var head := WithEnhancement(base, Some(enhance));
    if workspace.Some? && !IsBlank(workspace.value) {
      StartsWithAppend(head, WorkspaceSection(Trim(workspace.value), guidance));
    } else {
      StartsWithAppend(head, []);
      assert head + [] == head;
    }
  }

  /** A non-blank workspace path ends the prompt with its section, which holds the path and the guidance. */
  lemma PromptWorkspaceLast(base: string, enhance: Option<string>, workspace: string, guidance: string)
    requires !IsBlank(workspace)
    ensures var r := BuildEnhancedSystemPrompt(base, enhance, Some(workspace), guidance);
            && EndsWith(r, WorkspaceSection(Trim(workspace), guidance))
            && Contains(r, "Workspace path: " + Trim(workspace) + "\n" + guidance)
  {
    var head := WithEnhancement(base, enhance);
    var section := WorkspaceSection(Trim(workspace), guidance);
    var body := "Workspace path: " + Trim(workspace) + "\n" + guidance;
    var w := "Workspace path: " + Trim(workspace);
    assert "\n\nWorkspace path: " == "\n\n" + "Workspace path: ";
    AppendAssoc("\n\n", "Workspace path: ", Trim(workspace));
    AppendAssoc("\n\n", w, "\n");
    AppendAssoc("\n\n", w + "\n", guidance);
    assert section == "\n\n" + body;
    EndsWithAppend(head, section);
    assert head + section == (head + "\n\n") + body + [];
    ContainsInfix(head + "\n\n", body, []);
  }

  /** The handler's inputs that come from the request body. */
  datatype ChatRequest = ChatRequest(
    message: string,
    sessionId: Option<string>,
    systemPrompt: Option<string>,
    enhancePrompt: Option<string>,
    workspacePath: Option<string>,
    model: string)

  /** What `storage.load_session` returned. */
  datatype LoadOutcome = Stored(session: Session) | NotStored | LoadFailed(error: string)

  datatype ChatResponse =
    | BadRequest(error: string)
    | InternalServerError(error: string)
    | Created(sessionId: string, streamUrl: string, status: string)

  /** A request field that is present and non-blank, trimmed. */
  function NonBlank(v: Option<string>): (r: Option<string>)
    ensures r.Some? <==> v.Some? && !IsBlank(v.value)
    ensures r.Some? ==> r.value == Trim(v.value) && r.value != []
  {
    if v.Some? then if Trim(v.value) == [] then None else Some(Trim(v.value))
    else None
  }

  /** The system prompt the handler installs: the request's, else the default base prompt. */
  function RequestSystemPrompt(req: ChatRequest, defaultBasePrompt: string, guidance: string): string
  {
    BuildEnhancedSystemPrompt(NonBlank(req.systemPrompt).UnwrapOr(defaultBasePrompt),
                              NonBlank(req.enhancePrompt), NonBlank(req.workspacePath), guidance)
  }

  /**
   * The session after a chat turn: the system prompt upserted, the user's
   * message appended last, the trimmed model recorded.
   */
  function ChattedSession(s: Session, systemPrompt: string, userMessage: string, model: string): (r: Session)
    ensures r.id == s.id && r.model == model
    ensures |r.messages| >= 2 && r.messages[0] == Message(System, systemPrompt)
    ensures r.messages[|r.messages| - 1] == Message(User, userMessage)
    ensures CountSystem(r.messages) == 1
    ensures NonSystem(r.messages) == NonSystem(s.messages) + [Message(User, userMessage)]
  {
    var upserted := UpsertSystemPrompt(s.messages, systemPrompt);
    var ms := upserted + [Message(User, userMessage)];
    NonSystemAppend(upserted, [Message(User, userMessage)]);
    assert NonSystem([Message(User, userMessage)]) == [Message(User, userMessage)];
    CountSystemAppend(upserted, [Message(User, userMessage)]);
    Session(s.id, model, ms)
  }

  lemma {:induction false} CountSystemAppend(a: seq<Message>, b: seq<Message>)
    ensures CountSystem(a + b) == CountSystem(a) + CountSystem(b)
  {
    if a == [] {
      assert a + b == b;
    } else {
      assert (a + b)[0] == a[0];
      assert (a + b)[1..] == a[1..] + b;
      CountSystemAppend(a[1..], b);
    }
  }

  /** The in-memory session table of the server state. */
  class ChatState {
    var sessions: map<string, Session>

    constructor(sessions: map<string, Session>)
      ensures this.sessions == sessions
    {
      this.sessions := sessions;
    }

    /**
     * `handler`: validates the model, finds the session (table, then
     * storage, then a new one), installs the system prompt and the user's
     * message, records the session in the table and saves it.
     * `freshId` stands for the generated UUID, `load` for what storage
     * returns and `saveError` for a failed save.
     */
    method Handle(req: ChatRequest, freshId: string, load: LoadOutcome, saveError: Option<string>,
                  defaultBasePrompt: string, guidance: string)
      returns (resp: ChatResponse)
      modifies this
      ensures var id := if req.sessionId.Some? then req.sessionId.value else freshId;
              && (IsBlank(req.model) ==> resp == BadRequest("model is required") && sessions == old(sessions))
              && (!IsBlank(req.model) && id !in old(sessions) && load.LoadFailed? ==>
                    resp == InternalServerError("Failed to load session: " + load.error) && sessions == old(sessions))
              && (!IsBlank(req.model) && (id in old(sessions) || !load.LoadFailed?) ==>
                    var prior := if id in old(sessions) then old(sessions)[id]
                                 else if load.Stored? then load.session else NewSession(id, Trim(req.model));
                    && sessions == old(sessions)[id := ChattedSession(prior, RequestSystemPrompt(req, defaultBasePrompt, guidance),
                                                                      req.message, Trim(req.model))]
                    && (saveError.Some? ==> resp == InternalServerError("Failed to save session: " + saveError.value))
                    && (saveError.None? ==> resp == Created(id, "/api/v1/stream/" + id, "streaming")))
    {
      var sessionId := if req.sessionId.Some? then req.sessionId.value else freshId;
      var model := Trim(req.model);
      if model == [] {
        return BadRequest("model is required");
      }
      var session: Session;
      if sessionId in sessions {
        session := sessions[sessionId];
      } else {
        match load
        case Stored(s) => session := s;
        case NotStored => session := NewSession(sessionId, model);
        case LoadFailed(e) => return InternalServerError("Failed to load session: " + e);
      }
      var basePrompt := NonBlank(req.systemPrompt).UnwrapOr(defaultBasePrompt);
      var systemPrompt := BuildEnhancedSystemPrompt(basePrompt, NonBlank(req.enhancePrompt), NonBlank(req.workspacePath), guidance);
      session := session.(messages := UpsertSystemPrompt(session.messages, systemPrompt));
      session := session.(messages := session.messages + [Message(User, req.message)]);
      session := session.(model := model);
      sessions := sessions[sessionId := session];
      if saveError.Some? {
        return InternalServerError("Failed to save session: " + saveError.value);
      }
      resp := Created(sessionId, "/api/v1/stream/" + sessionId, "streaming");
    }
  }
}
