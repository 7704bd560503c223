# Bamboo agent backend: a verified model of its deterministic core

Bamboo is an LLM-agent backend written in Rust. It is made of a Tauri desktop shell, an actix web service and an MCP (Model Context Protocol) client. This project models, in Dafny, the sequential logic that sits around its I/O, and proves what that logic promises:

- **Tool-output capping** (`OutputManager`). An oversized tool result is cut at a newline or space boundary, a truncation notice is appended, and the content budget shrinks until the inline text fits. The full text is stored as an artifact, and the owning tool call is recovered from the artifact id.
- **Settings and proxy configuration** (`SettingsController`, `TauriApp`). These cover the rewriting of `config.json`:
  - stripping and cleaning proxy fields;
  - masking API keys, and merging provider updates without overwriting a real key with a masked one;
  - the two legacy migrations;
  - the extraction of model ids from a provider's `/models` answer;
  - the priority chain that picks the stored proxy credential;
  - when encrypted credentials are persisted;
  - the `setup` reset.
- **Chat sessions** (`ChatHandler`). Model-name validation, assembly of the enhanced system prompt, and the upsert that keeps exactly one system message at the head of a session.
- **The todo-list tool** (`TodoList`). Argument validation and the rendered Markdown list.
- **MCP** (`McpExecutor`, `McpReconnect`, `McpManager`, `McpClient`, `McpConfigs`, `McpTypes`, `McpErrors`, `McpModels`).
  - result rendering and error mapping, and the built-in-first composite executor;
  - the server registry and its health check;
  - the reconnect loop with capped exponential backoff;
  - the JSON-RPC id counter and pending-request table;
  - the configuration records with their serde defaults;
  - the protocol's message records and the display strings of errors.
- **The Gemini-compatible endpoints** (`GeminiController`). How a provider's chunk stream is folded into one response or streamed chunk by chunk, how tool declarations are flattened, and the model list.
- **The command catalogue** (`CommandController`). Workflows, skills and MCP tools become commands, merged and sorted by name, and one command's content is looked up.
- **Small rules**:
  - the `.bamboo` directory layout and the session-file migration (`BambooPaths`);
  - the `read_file` tool's `~/` expansion and `..` guard (`ReadFileTool`);
  - default-model selection (`ModelConfig`).

JSON is the datatype `Json` (`Null | Bool | Num(int) | Str | Arr | Obj`). serde's derived (de)serialisation is written out per record in `Serde` style: an absent field takes its default and a field of the wrong type fails. Encryption, the token counter, JSON text parsing and serialisation, the clock, UUIDs, the environment, the home directory, the file system, the network and the MCP transport are parameters. Objects the source updates in place are classes:
- the MCP server registry (`McpManager.McpServerManager`);
- the protocol client (`McpClient.ProtocolClient`);
- the chat state (`ChatHandler.ChatState`).

Loops of the source are methods proved against specification functions.

## Model

| member | source | states |
|---|---|---|
| OutputManager.CutPoint | crates/agent-tools/src/output_manager.rs:140-142 | the cut is at the last newline of the window if there is one, else at its last space, else at the window's end |
| OutputManager.TruncateToTokenLimit | crates/agent-tools/src/output_manager.rs:130-145 | text of at most ⌊3.5·t⌋ characters comes back unchanged; longer text becomes the window cut at its `CutPoint` (last newline, else last space, else its end), followed by "..." |
| OutputManager.TruncateAtLastSpace | crates/agent-tools/src/output_manager.rs:139-141 | when the window holds no newline but a space, the cut is at the window's last space |
| OutputManager.TruncateAtWindowEnd | crates/agent-tools/src/output_manager.rs:139-144 | when the window holds neither a newline nor a space, the whole window is kept before "..." |
| OutputManager.TruncatePrefersNewline | crates/agent-tools/src/output_manager.rs:140-144 | when the window holds a newline the cut is at its last newline, so no newline lies between the cut and the window's end |
| OutputManager.NoticeCandidates | crates/agent-tools/src/output_manager.rs:110-116 | there are exactly three notices, and each names the artifact id |
| OutputManager.FirstFitting | crates/agent-tools/src/output_manager.rs:118-122 | the index found is the first candidate whose token count is within the budget; none found means no candidate fits |
| OutputManager.BuildTruncationNotice | crates/agent-tools/src/output_manager.rs:106-127 | when some notice fits, the first fitting candidate is returned, it fits the budget and names the artifact; otherwise the third candidate truncated to the budget |
| OutputManager.StoreArtifact | crates/agent-tools/src/output_manager.rs:150-170 | a failed directory creation or write is returned as the error; otherwise the artifact keeps the tool call id and the measured token count, its id is "{tool_call_id}_{timestamp}", its path is that id plus ".txt" under the artifacts directory, and for an `i64` timestamp listing that file gives back the id and the tool call id |
| OutputManager.CapToolResult | crates/agent-tools/src/output_manager.rs:61-101 | a result within budget comes back unchanged with no artifact; otherwise a failed store is returned as the error, and a successful one gives the stored artifact and a capped text that is a truncation of the result followed by the notice, the loop stopping at the first budget (counting down from the saturating difference) where the budget is 0 or the capped text fits |
| OutputManager.CappedWithinBudget | crates/agent-tools/src/output_manager.rs:90-100 | when some notice fits, the capped text the loop settles on always fits the inline token budget |
| OutputManager.ListedArtifact | crates/agent-tools/src/output_manager.rs:197-199 | only a name of the form "{id}.txt" is listed, and it is listed under that id |
| OutputManager.RecoverToolCallIdRoundTrip | crates/agent-tools/src/output_manager.rs:204-208 | the tool call id recovered from "{tool_call_id}_{timestamp}" is the original tool call id |
| OutputManager.RecoverToolCallId | crates/agent-tools/src/output_manager.rs:204-208 | an id without `_` recovers no tool call id; a recovered tool call id is followed by `_` and then by an `i64` free of `_` that ends the id |
| OutputManager.RecoverAtLastUnderscore | crates/agent-tools/src/output_manager.rs:204-208 | the id is split at its last `_`: the part before comes back when the part after parses as an `i64`, and "" otherwise |
| OutputManager.ListedArtifactOfId | crates/agent-tools/src/output_manager.rs:197-208 | the file "{id}.txt" is listed with id `id` and the tool call id recovered from it |
| OutputManager.ListedArtifactRoundTrip | crates/agent-tools/src/output_manager.rs:158-208 | an artifact file written by `store_artifact` is listed with its own id and its original tool call id |
| SettingsController.StripProxyAuth | crates/web_service/src/controllers/settings_controller.rs:33-39 | a non-object is unchanged; an object loses exactly `proxy_auth` and `proxy_auth_encrypted` and keeps every other key and value |
| SettingsController.StripProxyAuthIdempotent | crates/web_service/src/controllers/settings_controller.rs:33-39 | stripping twice is the same as stripping once |
| SettingsController.CleanEmptyProxyFields | crates/web_service/src/controllers/settings_controller.rs:42-58 | a non-object is unchanged; `http_proxy` and `https_proxy` stay exactly when they hold a non-empty string; every other key is untouched |
| SettingsController.CleanedProxyFieldsNonEmpty | crates/web_service/src/controllers/settings_controller.rs:42-58 | after cleaning, a proxy field that remains is a non-empty string |
| SettingsController.EncryptProxyAuth | crates/web_service/src/controllers/settings_controller.rs:61-81 | without `proxy_auth` the config is unchanged; when encryption succeeds `proxy_auth` is replaced by `proxy_auth_encrypted` holding the ciphertext and no other key changes; when it fails the config is unchanged |
| SettingsController.DecryptProxyAuth | crates/web_service/src/controllers/settings_controller.rs:83-97 | `proxy_auth` is set from `proxy_auth_encrypted` exactly when that key is a string that decrypts and parses; otherwise the config is unchanged |
| SettingsController.EncryptDecryptRoundTrip | crates/web_service/src/controllers/settings_controller.rs:61-97 | with a cipher that inverts itself and a parser that inverts the serializer, decrypting the encrypted config restores `proxy_auth`, and the two agree once secrets are stripped |
| SettingsController.UnsafeWorkflowNames | crates/web_service/src/controllers/settings_controller.rs:99-107 | a workflow name is unsafe exactly when it is empty or contains "/", "\\" or ".." |
| SettingsController.SafeWorkflowFileIsPlain | crates/web_service/src/controllers/settings_controller.rs:99-107 | for a safe name, "{name}.md" is a single path component with no separator and no ".." |
| SettingsController.IsSafeWorkflowName | crates/web_service/src/controllers/settings_controller.rs:99-107 | a safe workflow name is never empty and never ".." |
| SettingsController.SetBambooConfig | crates/web_service/src/controllers/settings_controller.rs:206-233 | the saved config is an object exactly when the payload is; plaintext `proxy_auth` is never saved; the stored `proxy_auth_encrypted` is carried over exactly when the existing file had one; other non-proxy keys come from the payload; `http_proxy`/`https_proxy` are kept exactly when the payload gives them as non-empty strings |
| SettingsController.SetProxyAuth | crates/web_service/src/controllers/settings_controller.rs:243-295 | an unparsable file is a `SerdeError`; a missing or unreadable file starts from an empty object; a blank username removes both auth keys; otherwise the auth is stored encrypted, or, if encryption fails, in plaintext with `proxy_auth_encrypted` left as loaded; every other key, and a config that is not an object, stays as loaded |
| SettingsController.ProxyAuthBase | crates/web_service/src/controllers/settings_controller.rs:263-271 | a missing or unreadable file gives an empty object, an unparsable one a `SerdeError`, and a parsed one the config with its stored auth decrypted |
| SettingsController.MaskKey | crates/web_service/src/controllers/settings_controller.rs:500-510 | a key longer than 8 becomes its first 4, "..." and its last 4; a non-empty shorter key becomes "***"; an empty key stays empty |
| SettingsController.MaskKeyHidesKey | crates/web_service/src/controllers/settings_controller.rs:500-510 | a masked non-empty key is at most 11 characters and contains "***" or "...", so the merge recognises it as masked |
| SettingsController.MaskedEntry | crates/web_service/src/controllers/settings_controller.rs:497-512 | only a string `api_key` of an object entry is rewritten; anything else is unchanged |
| SettingsController.MaskedProviders | crates/web_service/src/controllers/settings_controller.rs:493-518 | the same provider names, each entry masked |
| SettingsController.MaskApiKeysInProviders | crates/web_service/src/controllers/settings_controller.rs:493-518 | a non-object is returned as is; an object has every provider entry masked |
| SettingsController.MergedEntry | crates/web_service/src/controllers/settings_controller.rs:556-573 | an incoming entry whose string `api_key` contains "***" or "..." takes the existing entry's `api_key` when there is one; every other incoming entry replaces the old one as is |
| SettingsController.MergedProviders | crates/web_service/src/controllers/settings_controller.rs:547-584 | the merged map has the union of the names; incoming entries are merged, existing entries not in the update are kept |
| SettingsController.MergeProviders | crates/web_service/src/controllers/settings_controller.rs:554-576 | the loop over the incoming entries computes exactly the merged map |
| SettingsController.MergeMaskedRestoresKeys | crates/web_service/src/controllers/settings_controller.rs:493-584 | sending back the masked providers the GET returned leaves the stored providers unchanged |
| SettingsController.MaskedKeyNeverOverwrites | crates/web_service/src/controllers/settings_controller.rs:556-573 | a masked incoming key never replaces a stored key |
| SettingsController.LoadedConfig | crates/web_service/src/controllers/settings_controller.rs:532-544 | a missing file gives an empty object, a read failure a `StorageError`, a parse failure a `SerdeError`, and a parsed config comes back with its proxy auth decrypted |
| SettingsController.UpdatedConfig | crates/web_service/src/controllers/settings_controller.rs:546-584 | `provider` is set; `providers` is merged into an existing object, kept when the update is not an object, and replaced wholesale when it was missing or not an object; other keys are untouched |
| SettingsController.UpdateProviderConfig | crates/web_service/src/controllers/settings_controller.rs:522-626 | read and parse errors are reported; otherwise the saved config is the updated config with empty proxy fields dropped and `proxy_auth` encrypted |
| SettingsController.MigrateRootModel | crates/web_service/src/controllers/settings_controller.rs:399-421 | the root `model` moves into `providers[provider].model` exactly when the provider (default "copilot") is not copilot, its entry exists and is an object (or null) without `model`; only then is the root field removed; otherwise nothing changes; a migration changes no other root key, no other provider entry and no other field of the entry |
| SettingsController.MigrateRootModelAgrees | crates/web_service/src/controllers/settings_controller.rs:399-421 | wherever the code as written does not panic, it agrees with the corrected migration |
| SettingsController.MigrateRootModelPanics | crates/web_service/src/controllers/settings_controller.rs:405-408 | a provider entry that is a string makes the code as written panic |
| SettingsController.MigrateRootModelAsWritten | crates/web_service/src/controllers/settings_controller.rs:399-421 | as written, migration 1 panics exactly when the root `model` would move into an existing provider entry that is neither an object nor null; where it does not change the config it returns it as it was |
| SettingsController.MigrateHeadlessAuth | crates/web_service/src/controllers/settings_controller.rs:423-445 | a boolean root `headless_auth` moves into `providers.copilot.headless_auth`, creating the copilot object, exactly when `providers` exists and that key is absent; only then is the root field removed; a migration changes no other root key, no other provider entry and no other copilot field |
| SettingsController.MigrateHeadlessAuthAgrees | crates/web_service/src/controllers/settings_controller.rs:423-445 | wherever the code as written does not panic, it agrees with the corrected migration |
| SettingsController.MigrateHeadlessAuthPanics | crates/web_service/src/controllers/settings_controller.rs:430-433 | a `providers.copilot` that is a boolean makes the code as written panic |
| SettingsController.MigrateHeadlessAuthAsWritten | crates/web_service/src/controllers/settings_controller.rs:423-445 | as written, migration 2 panics exactly when a boolean root `headless_auth` meets a `providers` value that is neither an object nor null, or a `providers.copilot` entry that is neither; where it does not change the config it returns it as it was |
| SettingsController.GetProviderConfig | crates/web_service/src/controllers/settings_controller.rs:387-490 | a missing file gives provider "copilot" and no providers; read and parse errors are reported; otherwise both migrations run, the config is saved (with `proxy_auth` encrypted) exactly when one changed it, and the response carries the provider and the masked providers, with the corrected migrations of ## Findings |
| SettingsController.ModelsRequestFor | crates/web_service/src/controllers/settings_controller.rs:686-722 | only openai, anthropic and gemini are supported; openai sends a Bearer header, anthropic `x-api-key`, gemini the key in the query; a base URL loses its trailing slashes before "/models" (gemini: before "?key="); without one, the openai, anthropic and googleapis default URLs are used |
| SettingsController.BaseUrlSlashesIgnored | crates/web_service/src/controllers/settings_controller.rs:687-710 | a trailing slash on the base URL does not change the request |
| SettingsController.ModelsEntryId | crates/web_service/src/controllers/settings_controller.rs:764-776 | a `models` entry gives its `name`, else its `id`, else the entry itself when it is a string |
| SettingsController.ExtractModelIds | crates/web_service/src/controllers/settings_controller.rs:757-786 | `data[*].id` when `data` is an array, else the ids of the `models` entries, else the strings of a top-level array, in order and each string element kept; any other shape is "Unexpected response format" |
| SettingsController.ExtractDataIds | crates/web_service/src/controllers/settings_controller.rs:757-761 | when every `data` entry has a string id, the ids come back one per entry, in order |
| SettingsController.ProviderModelsRequest | crates/web_service/src/controllers/settings_controller.rs:629-678 | a missing config file is `NotFound`, a read failure a `StorageError`, an unparsable one a `SerdeError`; the provider defaults to openai; a provider without an API key is "API key not configured"; with a key, the request is built from the provider, that key and the entry's `base_url` |
| TauriApp.DecodeProxyAuth | src-tauri/src/lib.rs:30-35 | a credential decodes exactly when both `username` and `password` are strings |
| TauriApp.DecodeEncodeProxyAuth | src-tauri/src/lib.rs:30-35 | decoding an encoded credential gives it back |
| TauriApp.EncodeProxyAuth | src-tauri/src/lib.rs:232-238 | a credential serialises as an object with exactly the string fields `username` and `password` |
| TauriApp.ReadProxyAuthFromPlain | src-tauri/src/lib.rs:30-35 | a plaintext key yields a credential exactly when it holds an object with string `username` and `password`, and then that credential |
| TauriApp.ReadProxyAuthFromEncrypted | src-tauri/src/lib.rs:37-60 | a missing or non-string key, a failed decryption or a failed parse gives no credential; otherwise the decrypted text is decoded |
| TauriApp.FirstAuth | src-tauri/src/lib.rs:62-83 | when the first source yields a credential, that credential is returned |
| TauriApp.ReadProxyAuthFromConfig | src-tauri/src/lib.rs:62-73 | a scheme yields no credential exactly when neither its encrypted nor its plaintext key does, and otherwise the credential of one of them |
| TauriApp.ReadProxyAuthUnified | src-tauri/src/lib.rs:75-83 | no credential exactly when the canonical encrypted key and both schemes yield none; a credential under the canonical encrypted key always wins |
| TauriApp.FirstAuthIsFirst | src-tauri/src/lib.rs:62-83 | no credential exactly when no source yields one; otherwise the credential of a source that every earlier source failed to yield |
| TauriApp.FirstAuthAppend | src-tauri/src/lib.rs:82 | trying one list of sources and falling back to another is trying their concatenation |
| TauriApp.SchemeIsPriorityOrder | src-tauri/src/lib.rs:62-73 | a per-scheme read tries the encrypted key, then the plaintext key |
| TauriApp.UnifiedIsPriorityOrder | src-tauri/src/lib.rs:75-83 | the unified read tries `proxy_auth_encrypted`, then http encrypted, http plain, https encrypted, https plain, and returns the first that decodes |
| TauriApp.ShouldExitExamples | src-tauri/src/lib.rs:339-352 | the app exits for a close request on "main" and not for another window or without a close request |
| TauriApp.ShouldExitOnMainWindowClose | src-tauri/src/lib.rs:93-95 | only a close request exits, and only one for the window labelled "main" |
| TauriApp.GetProxyConfig | src-tauri/src/lib.rs:122-156 | `remember` holds exactly when a stored credential was found; otherwise the environment's username and password are reported when both are set, else neither; the proxies default to "" |
| TauriApp.MarkSetupIncomplete | src-tauri/src/lib.rs:159-193 | an existing setup object gets `completed = false` and `reset_at` and keeps its other keys, adding no others; otherwise a fresh setup object is inserted, and a non-object config becomes `{"setup": …}`; other top-level keys are untouched |
| TauriApp.SetProxyConfig | src-tauri/src/lib.rs:196-256 | a non-object config is refused; both proxies are stored trimmed; the five plaintext and legacy auth keys are always removed; `proxy_auth_encrypted` is present exactly when remember holds, the trimmed username is non-empty and a proxy is non-empty, and then holds the encrypted credential with the trimmed username and the untrimmed password, or the call fails with the encryption error; without credentials to persist an object config always succeeds; other keys are untouched |
| ChatHandler.NewSession | crates/agent-server/src/handlers/chat.rs:51 | a new session has the given id and model and no messages |
| ChatHandler.NonSystem | crates/agent-server/src/handlers/chat.rs:105-107 | the kept messages are non-system messages of the input; an input without system messages is kept whole |
| ChatHandler.NonSystemAppend | crates/agent-server/src/handlers/chat.rs:105-107 | removing system messages distributes over concatenation, so relative order is kept |
| ChatHandler.UpsertSystemPrompt | crates/agent-server/src/handlers/chat.rs:104-111 | afterwards there is exactly one system message, at index 0, holding the prompt, and the non-system messages follow in their original order |
| ChatHandler.UpsertTwice | crates/agent-server/src/handlers/chat.rs:104-111 | a second upsert replaces the first: only the latest prompt remains |
| ChatHandler.BuildEnhancedSystemPrompt | crates/agent-server/src/handlers/chat.rs:113-139 | the result always starts with the base prompt |
| ChatHandler.PromptWithoutExtras | crates/agent-server/src/handlers/chat.rs:113-139 | with the enhancement and the workspace absent or blank, the base prompt comes back unchanged |
| ChatHandler.PromptEnhancementFirst | crates/agent-server/src/handlers/chat.rs:120-126 | a non-blank enhancement follows the base as "\n\n" and the trimmed enhancement, before any workspace section |
| ChatHandler.PromptWorkspaceLast | crates/agent-server/src/handlers/chat.rs:128-136 | a non-blank workspace ends the prompt with "\n\nWorkspace path: {path}\n" and the guidance |
| ChatHandler.NonBlank | crates/agent-server/src/handlers/chat.rs:61-76 | a request field counts exactly when it is present and not blank, and then it is trimmed |
| ChatHandler.ChattedSession | crates/agent-server/src/handlers/chat.rs:77-83 | the session keeps its id, records the model, has its single system prompt first and the user's message last, and keeps its earlier non-system messages in order |
| ChatHandler.CountSystemAppend | crates/agent-server/src/handlers/chat.rs:77-80 | system messages are counted additively over concatenation |
| ChatHandler.ChatState.Handle | crates/agent-server/src/handlers/chat.rs:28-102 | a blank model is `BadRequest("model is required")` with nothing changed; a failed load of an unknown session is an internal error with nothing changed; otherwise the session (from the table, from storage or new) gets the system prompt, the user message and the trimmed model, is stored in the table, and the answer is a save error or `Created` with stream URL "/api/v1/stream/{id}" |
| TodoList.ParseItem | crates/agent-tools/src/tools/create_todo_list.rs:36-59 | an item needs a string `id` and then a string `description`, else the matching `InvalidArguments`; a parsed item is pending with empty notes; `depends_on` keeps only its string entries (all of them, in order, when all are strings) and is empty when absent |
| TodoList.TodoListFromArgs | crates/agent-tools/src/tools/create_todo_list.rs:22-69 | a non-string title or a non-array `items` is rejected with its message; otherwise the list fails with the error of its first malformed item, or has one parsed item per element in order, with the session id and title copied and the two clock readings as `created_at` and `updated_at` |
| TodoList.StatusIcon | crates/agent-tools/src/tools/create_todo_list.rs:76-81 | every icon is three characters in brackets |
| TodoList.StatusIconInjective | crates/agent-tools/src/tools/create_todo_list.rs:76-81 | different statuses have different icons |
| TodoList.ItemsTextAppend | crates/agent-tools/src/tools/create_todo_list.rs:75-92 | the text of the items is the concatenation of each item's text, in order |
| TodoList.ItemsTextSnoc | crates/agent-tools/src/tools/create_todo_list.rs:75-92 | one more loop pass appends exactly the next item's text |
| TodoList.CountCompleted | crates/agent-tools/src/tools/create_todo_list.rs:96 | the count is 0 exactly when no item is completed and the total exactly when all are |
| TodoList.FormatTodoList | crates/agent-tools/src/tools/create_todo_list.rs:72-101 | the loop builds exactly the header, each item's text in order, and the progress line |
| TodoList.TodoListTextFrame | crates/agent-tools/src/tools/create_todo_list.rs:73-98 | the text starts with "# {title}\n\n" and ends with "\nProgress: {completed}/{total} completed" |
| TodoList.PlainItemText | crates/agent-tools/src/tools/create_todo_list.rs:83-91 | an item without notes or dependencies renders as the single line "{icon} {id}: {description}\n" |
| TodoList.FreshListProgress | crates/agent-tools/src/tools/create_todo_list.rs:53-98 | a list just built from arguments reports "Progress: 0/{n} completed" |
| McpExecutor.RenderItem | crates/agent-mcp/src/executor.rs:26-38 | text renders as itself, an image as "[Image: {mime} ({n} bytes)]", a resource as "[Resource {uri}]" with ": {text}" exactly when it has text |
| McpExecutor.RenderImage | crates/agent-mcp/src/executor.rs:28-30 | an image renders as "[Image: {mime} ({n} bytes)]" with n the length of its data |
| McpExecutor.RenderImageTellsSize | crates/agent-mcp/src/executor.rs:28-30 | two images of one mime type render alike only when their data are equally long |
| McpExecutor.RenderResource | crates/agent-mcp/src/executor.rs:31-37 | a resource renders as "[Resource {uri}]", and exactly when it has text that is followed by ": " and the text |
| McpExecutor.FormatResultContent | crates/agent-mcp/src/executor.rs:23-41 | no items render as the empty text; otherwise the text begins with the first item's rendering and ends with the last one's |
| McpExecutor.FormatSingle | crates/agent-mcp/src/executor.rs:23-41 | a single item is rendered without separators |
| McpExecutor.FormatConcat | crates/agent-mcp/src/executor.rs:23-41 | the renderings of consecutive items are joined with one "\n" |
| McpExecutor.FormatTwoTexts | crates/agent-mcp/src/executor.rs:200-266 | two text items give "{x}\n{y}" |
| McpExecutor.ResourceWithText | crates/agent-mcp/src/executor.rs:31-37 | a resource with text renders as "[Resource {uri}]: {text}" |
| McpExecutor.ToolErrorOf | crates/agent-mcp/src/executor.rs:96-105 | `ServerNotFound` and `ToolNotFound` become `NotFound` with their messages; every other error becomes `Execution("MCP error: …")`; none becomes `InvalidArguments` |
| McpExecutor.ExecutionErrorKeepsCause | crates/agent-mcp/src/executor.rs:102-105 | the original error can be read back from an execution error's message |
| McpExecutor.ToolResultOf | crates/agent-mcp/src/executor.rs:79-95 | success exactly when the server did not flag an error; the content is formatted the same either way |
| McpExecutor.Execute | crates/agent-mcp/src/executor.rs:46-107 | an unknown alias is `NotFound`; then bad JSON arguments are `InvalidArguments("Invalid JSON: …")`; the call succeeds exactly when the server call does, with the mapped result, and its errors are mapped |
| McpExecutor.UnknownAliasFirst | crates/agent-mcp/src/executor.rs:52-60 | an unknown alias fails with `NotFound` whatever the arguments and the servers would do |
| McpExecutor.SchemaOf | crates/agent-mcp/src/executor.rs:113-125 | an alias is announced exactly when its tool info exists, as a "function" schema under the alias name with the tool's description and parameters |
| McpExecutor.ListTools | crates/agent-mcp/src/executor.rs:109-127 | every announced schema is a "function" for some alias with tool info; every alias with tool info has its schema announced; when every alias has tool info there is one schema per alias, in order, under the alias name |
| McpExecutor.ListToolsSplit | crates/agent-mcp/src/executor.rs:109-127 | the schemas of a list of aliases are those of any prefix followed by those of the rest, so they come in alias order |
| McpExecutor.ListToolsOne | crates/agent-mcp/src/executor.rs:113-125 | one alias contributes no schema without tool info and exactly its schema with it |
| McpExecutor.CompositeExecute | crates/agent-mcp/src/executor.rs:147-161 | a built-in success is returned; a built-in `NotFound` falls through to MCP; the result differs from the built-in one only in that fall-through case |
| McpExecutor.CompositeAssociative | crates/agent-mcp/src/executor.rs:147-161 | chaining executors by the fall-through rule does not depend on grouping |
| McpExecutor.NothingFoundIsNeutral | crates/agent-mcp/src/executor.rs:147-161 | an executor that finds nothing is neutral on either side of the chain |
| McpExecutor.CompositeListTools | crates/agent-mcp/src/executor.rs:163-167 | the built-in tools come first, then the MCP tools |
| McpReconnect.NextBackoff | crates/agent-mcp/src/manager.rs:577-583 | the backoff never decreases; it doubles up to the maximum only when the maximum is above it, stays at or under a maximum it started under, and is unchanged once at or above the maximum |
| McpReconnect.Backoff | crates/agent-mcp/src/manager.rs:487-583 | the backoff before any attempt is at least the initial backoff |
| McpReconnect.ScheduleAt | crates/agent-mcp/src/manager.rs:529-536 | the backoff slept before attempt i is the initial backoff grown i times |
| McpReconnect.BackoffMonotone | crates/agent-mcp/src/manager.rs:577-583 | later attempts never wait less than earlier ones |
| McpReconnect.BackoffCapped | crates/agent-mcp/src/manager.rs:577-583 | when the initial backoff is within the maximum, no backoff exceeds the maximum |
| McpReconnect.ScheduleShape | crates/agent-mcp/src/manager.rs:577-583 | the slept backoffs are non-decreasing and, with the initial backoff within the maximum, capped by it |
| McpReconnect.DefaultSchedule | crates/agent-mcp/src/config.rs:134-156 | with the default 1000 and 30000 the first seven backoffs are 1000, 2000, 4000, 8000, 16000, 30000, 30000 |
| McpReconnect.RunEnd | crates/agent-mcp/src/manager.rs:495-586 | a run ends within the attempts available, and a cancellation after some attempts follows a failed attempt |
| McpReconnect.RunEndShape | crates/agent-mcp/src/manager.rs:495-586 | a recovery comes from the first successful attempt; giving up happens after exactly `max_attempts` failures; cancellation happens where shutdown was observed; no run makes more than `max_attempts` attempts |
| McpReconnect.UnlimitedNeverGivesUp | crates/agent-mcp/src/manager.rs:499 | with `max_attempts = 0` the manager never gives up on its own |
| McpReconnect.ThreeFailuresGiveUp | crates/agent-mcp/src/manager.rs:499-527 | with a limit of 3 and every attempt failing, the manager gives up after exactly three attempts |
| McpReconnect.GiveUpError | crates/agent-mcp/src/manager.rs:524-527 | giving up is a `Connection` error "Max reconnection attempts reached for server '{id}'" |
| McpManager.StartedRuntime | crates/agent-mcp/src/manager.rs:136-150 | a new runtime is `Ready`, counts its tools, has no error, no disconnect and no restarts, and records the first clock reading as `connected_at` and the second as `last_ping_at` |
| McpManager.StoppedRuntime | crates/agent-mcp/src/manager.rs:206-217 | a stopped runtime is shut down, `Stopped`, disconnected now, and keeps its tools, config and restart count |
| McpManager.AliasNames | crates/agent-mcp/src/manager.rs:180-188 | the event lists the alias of every registered tool, in order |
| McpManager.FindTool | crates/agent-mcp/src/manager.rs:279-280 | a tool is found exactly when one has that name, and what is found is the first such tool |
| McpManager.AfterPing | crates/agent-mcp/src/manager.rs:400-433 | a good ping records the ping time and turns `Degraded` into `Ready`; a failed ping sets `Degraded` and records the error; counters are untouched |
| McpManager.FailedPingKeepsError | crates/agent-mcp/src/manager.rs:428-433 | the error recorded by a failed ping is the ping's error, readable back from its display string |
| McpManager.PingEvents | crates/agent-mcp/src/manager.rs:405-445 | at most one status event, for this server, carrying the new status; none for a good ping on a server that was not degraded |
| McpManager.RecoveredRuntime | crates/agent-mcp/src/manager.rs:547-551 | after a reconnect the runtime is `Ready` with no error and no disconnect time, one more restart, the new tools and a tool count that matches them |
| McpManager.RecoveredRuntimeAsWritten | crates/agent-mcp/src/manager.rs:547-551 | as written, the reconnect replaces the tools but keeps the old tool count |
| McpManager.ToolCountStale | crates/agent-mcp/src/manager.rs:653-657 | a server that comes back with a different number of tools has a stale count as written, and a matching count in the corrected record |
| McpManager.GaveUpInfo | crates/agent-mcp/src/manager.rs:507-510 | giving up sets `Error`, "Max reconnection attempts reached" and the disconnect time, and keeps the counters |
| McpManager.LastError | crates/agent-mcp/src/manager.rs:573-576 | after failed attempts `last_error` is the last failure's error; before any, it is the prior value |
| McpManager.RunResult | crates/agent-mcp/src/manager.rs:495-586 | the run fails exactly when it gave up, with the give-up error |
| McpManager.AfterRun | crates/agent-mcp/src/manager.rs:495-586 | a cancelled run keeps the record but its last error, a run that gave up records the give-up, a recovered run gets the recovered record; the tool count stays right |
| McpManager.RunEvents | crates/agent-mcp/src/manager.rs:512-560 | no event when cancelled; an `Error` status event when giving up; the tools-changed event and then a `Ready` event on recovery |
| McpManager.RunAttempts | crates/agent-mcp/src/manager.rs:487-586 | the loop ends as the attempt rule says, sleeps exactly the backoff schedule for the attempts it made, and leaves `last_error` at the last failure |
| McpManager.McpServerManager.Emitted | crates/agent-mcp/src/manager.rs:159-179 | events are sent only when an event channel is attached, and then all of them |
| McpManager.McpServerManager.constructor | crates/agent-mcp/src/manager.rs:43-55 | a new manager has no servers, no index entries and no events |
| McpManager.McpServerManager.StartServer | crates/agent-mcp/src/manager.rs:80-197 | an id already registered is `AlreadyRunning` and a failed handshake returns its error, both with nothing changed; otherwise the runtime and its aliases are registered and `Ready` and tools-changed events are sent |
| McpManager.McpServerManager.StopServer | crates/agent-mcp/src/manager.rs:199-239 | an absent id is `NotRunning` with nothing changed; otherwise the entry and its index entries are removed, the runtime is marked stopped and a `Stopped` event is sent |
| McpManager.McpServerManager.CallTool | crates/agent-mcp/src/manager.rs:241-270 | an absent server is `ServerNotFound`; otherwise the client's outcome is returned, and a success sends a tool-executed event with success equal to not `is_error`; the registry is unchanged |
| McpManager.McpServerManager.GetToolInfo | crates/agent-mcp/src/manager.rs:272-282 | no tool for an absent server; for a running server a tool is found exactly when one of its tools has that name, and it is the first one; a tool found belongs to that server |
| McpManager.McpServerManager.RefreshTools | crates/agent-mcp/src/manager.rs:284-341 | an absent server is `ServerNotFound` and a failed listing returns its error, both with nothing changed; otherwise the tools, the tool count and the index entries are replaced and a tools-changed event is sent |
| McpManager.McpServerManager.ListServers | crates/agent-mcp/src/manager.rs:343-349 | every registered id exactly once |
| McpManager.McpServerManager.GetServerInfo | crates/agent-mcp/src/manager.rs:351-358 | information exactly for a registered server, and it is that server's record |
| McpManager.McpServerManager.ShutdownAll | crates/agent-mcp/src/manager.rs:367-375 | afterwards no server and no index entry remains; with events on, exactly one `ServerStatusChanged(id, Stopped)` event is appended per former server and nothing else, and with events off none |
| McpManager.McpServerManager.StopEach | crates/agent-mcp/src/manager.rs:370-375 | stopping every listed server empties the registry and the index and appends one `Stopped` event per server, in list order |
| McpManager.McpServerManager.StopNext | crates/agent-mcp/src/manager.rs:371-374 | stopping the next listed server removes exactly it from the registry and appends its one `Stopped` event |
| McpManager.StoppedEventsCover | crates/agent-mcp/src/manager.rs:226-233 | one `Stopped` event per listed id, for a list enumerating the servers once each, is one event per server |
| McpManager.EnabledIdsMeaning | crates/agent-mcp/src/manager.rs:65-68 | an id is among the enabled ids exactly when some enabled server of the configuration has it |
| McpManager.McpServerManager.InitializeFromConfig | crates/agent-mcp/src/manager.rs:62-78 | the runtimes, index entries and events afterwards are those of starting every enabled server in order, each with its own clock readings (`StartedAfter`); so the registered ids are exactly the earlier ones plus those of the enabled servers whose handshake succeeds, earlier runtimes and index entries are unchanged, and each newly registered id holds the runtime and the aliases of the first enabled server with that id whose handshake succeeded; a disabled or failing server not already registered stays unregistered |
| McpManager.McpServerManager.StartNext | crates/agent-mcp/src/manager.rs:65-75 | a disabled server, an id already registered or a failed handshake leaves runtimes, index and events unchanged; otherwise the server is registered with its started runtime read with `clock(i)`, its aliases go into the index, and `Ready` then `ToolsChanged` are emitted; the result is one more step of `StartedAfter` |
| McpManager.StartableIdsSnoc | crates/agent-mcp/src/manager.rs:65-75 | one more server adds its id exactly when it is enabled and its handshake succeeds |
| McpManager.StartedKeepsEarlier | crates/agent-mcp/src/manager.rs:62-87 | starting servers never replaces a registered server: its runtime and index entries stay as they were |
| McpManager.StartedKeys | crates/agent-mcp/src/manager.rs:65-75 | after the first `n` servers the registered ids are the earlier ones plus those of the enabled servers among them whose handshake succeeds |
| McpManager.StartedByFirst | crates/agent-mcp/src/manager.rs:62-167 | a newly registered id holds the runtime, read with that server's clock, and the aliases of the first enabled server with that id whose handshake succeeded |
| McpManager.StartableWithinEnabled | crates/agent-mcp/src/manager.rs:65-75 | only enabled servers are started, and every enabled server whose handshake succeeds is |
| McpManager.McpServerManager.HealthCheck | crates/agent-mcp/src/manager.rs:388-460 | the check stops once the server is gone, skips a server that is reconnecting, and otherwise applies the ping's status transition, sends its event and asks for a reconnect exactly when the ping failed and reconnect is enabled |
| McpManager.McpServerManager.AttemptReconnection | crates/agent-mcp/src/manager.rs:462-588 | a call while already reconnecting returns `Ok` and does nothing; otherwise the attempts run as the attempt rule says with the backoff schedule, and the record, the index entries, the events and the result follow how the run ended, with the corrected tool count of ## Findings |
| McpClient.Classify | crates/agent-mcp/src/protocol/client.rs:115-130 | a message is a response exactly when it parses as one; otherwise a notification when it parses as one; otherwise unknown |
| McpClient.Handle | crates/agent-mcp/src/protocol/client.rs:110-131 | a response whose id is waiting is handed over and its entry removed; a response with an unknown id changes nothing; a notification is queued; an unknown message changes nothing |
| McpClient.HandleResult | crates/agent-mcp/src/protocol/client.rs:130 | handling fails exactly for an unknown message, with "Protocol error: Unknown message type" |
| McpClient.HandleAll | crates/agent-mcp/src/protocol/client.rs:76-104 | running the handler over messages only appends to the responses handed over |
| McpClient.AnsweredSinceStep | crates/agent-mcp/src/protocol/client.rs:116-121 | each handled message keeps the invariant that an entry leaves the table only with a response carrying its id |
| McpClient.HandleAllAnswers | crates/agent-mcp/src/protocol/client.rs:76-131 | after any run of messages, every removed entry was answered by a response with its id |
| McpClient.AnswerFor | crates/agent-mcp/src/protocol/client.rs:116-121 | an answer is found exactly when some handed-over response carries the id, and it is such a response |
| McpClient.RemovedIffAnswered | crates/agent-mcp/src/protocol/client.rs:116-121 | a waiting request leaves the table exactly when a response with its id arrived |
| McpClient.UnansweredStaysPending | crates/agent-mcp/src/protocol/client.rs:116-121 | without a response carrying its id, a request stays in the table |
| McpClient.RpcOutcome | crates/agent-mcp/src/protocol/client.rs:159-168 | a response without `error` is returned as is; with one it becomes `Protocol("{code}: {message}")` |
| McpClient.TimeoutError | crates/agent-mcp/src/protocol/client.rs:171-177 | a timeout is a `Timeout` error "Request {id} timed out after {ms}ms" |
| McpClient.TimeoutErrorNamesRequest | crates/agent-mcp/src/protocol/client.rs:171-177 | the request id and the wait can be read back from the timeout message: different requests or waits give different messages |
| McpClient.WaitOutcome | crates/agent-mcp/src/protocol/client.rs:153-178 | without a response for the id the request times out; otherwise the response's outcome; a success carries the request's id and no error |
| McpClient.SilentServerTimesOut | crates/agent-mcp/src/protocol/client.rs:171-177 | when nothing arrives the request times out and only its own entry is removed from the table |
| McpClient.ResultOf | crates/agent-mcp/src/protocol/client.rs:190 | an error passes through; a response without `result` is `Protocol("Missing result")` |
| McpClient.ReadResult | crates/agent-mcp/src/protocol/client.rs:189-191 | an error passes through; a result that does not decode is a `Serialization` error |
| McpClient.ToolsFromInfos | crates/agent-mcp/src/protocol/client.rs:214-222 | one tool per listed tool, in order, with its name and description, and `{}` when it has no input schema |
| McpClient.ProtocolClient.constructor | crates/agent-mcp/src/protocol/client.rs:38-48 | the first id is 1 and no request is waiting |
| McpClient.ProtocolClient.HandleMessage | crates/agent-mcp/src/protocol/client.rs:110-131 | the handler's state changes as one message says, and the id counter is untouched |
| McpClient.ProtocolClient.RunHandler | crates/agent-mcp/src/protocol/client.rs:70-108 | the handler's state changes as the messages say, in order |
| McpClient.ProtocolClient.Register | crates/agent-mcp/src/protocol/client.rs:138-147 | the request gets the next id, which was not waiting, the counter goes up by exactly 1, and the id is entered in the table before the request is sent |
| McpClient.ProtocolClient.SendRequest | crates/agent-mcp/src/protocol/client.rs:133-179 | the id counter goes up by one and the request is sent; a failed send returns its error and leaves the table as it was; otherwise the outcome of the wait, after which the request's entry is gone |
| McpClient.ProtocolClient.SendRequestAsWritten | crates/agent-mcp/src/protocol/client.rs:143-150 | as written, a failed send returns its error but leaves the request's entry in the table |
| McpClient.ProtocolClient.Wait | crates/agent-mcp/src/protocol/client.rs:153-178 | the handler runs over what arrives; the outcome is the answer for this id or a timeout, and the entry is gone afterwards |
| McpClient.ProtocolClient.Initialize | crates/agent-mcp/src/protocol/client.rs:181-203 | the `initialize` request carries the default parameters; on a decoded result the `notifications/initialized` notification is sent and its send error, if any, is returned; other errors pass through, with the corrected pending-table cleanup of ## Findings |
| McpClient.ProtocolClient.ListTools | crates/agent-mcp/src/protocol/client.rs:205-223 | `tools/list` is sent without params; the decoded tool list becomes tools with `{}` for a missing schema; errors pass through, with the corrected schema key and the corrected pending-table cleanup of ## Findings |
| McpClient.ProtocolClient.CallTool | crates/agent-mcp/src/protocol/client.rs:225-249 | `tools/call` carries the name and arguments; the decoded result is returned; errors pass through, with the corrected pending-table cleanup of ## Findings |
| McpClient.ProtocolClient.Ping | crates/agent-mcp/src/protocol/client.rs:251-254 | a ping succeeds exactly when its request does, and otherwise returns that error, with the corrected pending-table cleanup of ## Findings |
| McpConfigs.DefaultReconnect | crates/agent-mcp/src/config.rs:139-148 | reconnect is on, with 1000 ms initial and 30000 ms maximum backoff and no attempt limit |
| McpConfigs.DecodeReconnect | crates/agent-mcp/src/config.rs:123-156 | only an object decodes; the backoffs fit in 64 bits and the limit in 32; an absent limit means unlimited and an absent `enabled` means on |
| McpConfigs.ReconnectRoundTrip | crates/agent-mcp/src/config.rs:123-137 | decoding an encoded reconnect config gives it back |
| McpConfigs.ReconnectFieldDefaultsAgree | crates/agent-mcp/src/config.rs:126-156 | the per-field serde defaults give exactly the `Default` value |
| McpConfigs.ReconnectDisabledOnly | crates/agent-mcp/src/config.rs:348-353 | `{"enabled": false}` keeps the other defaults |
| McpConfigs.EnvOr | crates/agent-mcp/src/config.rs:88-89 | an absent `env` is empty |
| McpConfigs.DecodeStdio | crates/agent-mcp/src/config.rs:76-97 | `command` is required; absent args, cwd and env are empty, none and empty; the startup timeout defaults to 20000 |
| McpConfigs.DecodeHeader | crates/agent-mcp/src/config.rs:116-121 | a header decodes exactly when `name` and `value` are strings |
| McpConfigs.HeadersOr | crates/agent-mcp/src/config.rs:105-106 | absent headers are empty; an array decodes element by element |
| McpConfigs.DecodeSse | crates/agent-mcp/src/config.rs:99-114 | `url` is required; absent headers are empty and the connect timeout defaults to 10000 |
| McpConfigs.DecodeTransport | crates/agent-mcp/src/config.rs:68-74 | the `type` tag "stdio" or "sse" selects the variant; any other tag is refused |
| McpConfigs.EncodeStdio | crates/agent-mcp/src/config.rs:70-72 | a stdio transport is written with tag "stdio" |
| McpConfigs.EncodeSse | crates/agent-mcp/src/config.rs:70-73 | an SSE transport is written with tag "sse" |
| McpConfigs.StdioRoundTrip | crates/agent-mcp/src/config.rs:76-93 | decoding an encoded stdio config gives it back |
| McpConfigs.SseRoundTrip | crates/agent-mcp/src/config.rs:99-110 | decoding an encoded SSE config gives it back |
| McpConfigs.TransportRoundTrip | crates/agent-mcp/src/config.rs:68-74 | decoding an encoded transport gives it back |
| McpConfigs.ReconnectOr | crates/agent-mcp/src/config.rs:46-47 | an absent `reconnect` is the default reconnect config |
| McpConfigs.DecodeServer | crates/agent-mcp/src/config.rs:26-66 | `id` and `transport` are required; absent fields default to enabled, 60000 ms request timeout, 30000 ms health check interval, the default reconnect config and empty allow and deny lists |
| McpConfigs.EncodeServer | crates/agent-mcp/src/config.rs:32-33 | `name` is written exactly when present |
| McpConfigs.EncodedServerFields | crates/agent-mcp/src/config.rs:26-54 | every field of a server config is written under its own key |
| McpConfigs.ServerRoundTrip | crates/agent-mcp/src/config.rs:26-54 | decoding an encoded server config gives it back |
| McpConfigs.MinimalServerDefaults | crates/agent-mcp/src/config.rs:184-201 | a server with only an id and a stdio command gets every default |
| McpConfigs.DisabledServer | crates/agent-mcp/src/config.rs:392-401 | `"enabled": false` disables the server |
| McpConfigs.MinimalSse | crates/agent-mcp/src/config.rs:308-322 | an SSE transport with only a URL has no headers and a 10000 ms connect timeout |
| McpConfigs.DefaultConfig | crates/agent-mcp/src/config.rs:17-24 | the default config is version 1 with no servers |
| McpConfigs.DecodeConfig | crates/agent-mcp/src/config.rs:4-15 | an absent version is 1 and absent servers are none; the servers decode one for one, in order |
| McpConfigs.ConfigFieldDefaultsAgree | crates/agent-mcp/src/config.rs:7-24 | the per-field defaults give exactly the `Default` value |
| McpConfigs.ConfigRoundTrip | crates/agent-mcp/src/config.rs:4-11 | decoding an encoded config gives it back |
| McpTypes.ParseStatus | crates/agent-mcp/src/types.rs:43-51 | a status name parses only to the status whose lowercase name it is |
| McpTypes.StatusNameRoundTrip | crates/agent-mcp/src/types.rs:53-63 | every status's displayed name parses back to that status |
| McpTypes.StatusNameInjective | crates/agent-mcp/src/types.rs:53-63 | two statuses display the same name exactly when they are the same status |
| McpTypes.StatusName | crates/agent-mcp/src/types.rs:44-63 | every status name is non-empty and written in lowercase letters only |
| McpTypes.EncodeStatus | crates/agent-mcp/src/types.rs:43-51 | a status serializes to a JSON string that parses back to it |
| McpTypes.DecodeStatus | crates/agent-mcp/src/types.rs:43-51 | a JSON value decodes to a status only when it is that status's serialized form |
| McpTypes.StatusJsonRoundTrip | crates/agent-mcp/src/types.rs:43-51 | decoding a serialized status gives it back |
| McpTypes.DefaultRuntimeInfo | crates/agent-mcp/src/types.rs:81-93 | a default runtime record is stopped, has no error or timestamps, and zero tools and restarts |
| McpTypes.EncodeResource | crates/agent-mcp/src/types.rs:31-40 | a resource serializes to an object holding its uri as a string |
| McpTypes.DecodeResource | crates/agent-mcp/src/types.rs:31-40 | a resource needs a string uri; mime_type, text and blob are optional |
| McpTypes.ResourceRoundTrip | crates/agent-mcp/src/types.rs:31-40 | decoding a serialized resource gives it back |
| McpTypes.EncodeContentItem | crates/agent-mcp/src/types.rs:20-29 | a content item carries the `type` tag of its variant |
| McpTypes.DecodeContentItem | crates/agent-mcp/src/types.rs:20-29 | a content item is decoded by its `type` tag and is rejected without one |
| McpTypes.ContentItemRoundTrip | crates/agent-mcp/src/types.rs:20-29 | decoding a serialized content item gives it back |
| McpTypes.DecodeCallResult | crates/agent-mcp/src/types.rs:12-18 | a call result needs a content array, decoded one for one; an absent is_error means false |
| McpTypes.CallResultErrorDefault | crates/agent-mcp/src/types.rs:16-17 | a result sent without is_error decodes as a success with its content |
| McpTypes.EncodeEvent | crates/agent-mcp/src/types.rs:103-122 | an event carries its variant's `type` tag and server_id; a status change carries its status, and `error` only when there is one |
| McpTypes.EventTagDistinct | crates/agent-mcp/src/types.rs:104-122 | two events carry the same `type` tag exactly when they are the same variant |
| McpErrors.Display | crates/agent-mcp/src/error.rs:3-40 | Disconnected shows "Server disconnected"; every other error shows its variant's prefix followed by its message |
| McpErrors.DisplaySplit | crates/agent-mcp/src/error.rs:3-40 | a displayed error splits exactly into its variant's prefix and its message |
| McpErrors.ParseDisplayRoundTrip | crates/agent-mcp/src/error.rs:3-40 | the displayed text of any error determines the error: parsing it gives the error back |
| McpErrors.DisplayInjective | crates/agent-mcp/src/error.rs:3-40 | two errors display the same text exactly when they are the same error |
| McpErrors.FromSerdeError | crates/agent-mcp/src/error.rs:42-46 | a JSON error becomes a serialization error showing "Serialization error: " and its message |
| McpErrors.FromIoError | crates/agent-mcp/src/error.rs:48-52 | an I/O error becomes a transport error showing "Transport error: " and its message |
| McpErrors.FromReqwestError | crates/agent-mcp/src/error.rs:54-58 | an HTTP client error becomes a transport error showing "Transport error: " and its message |
| McpModels.NewRequest | crates/agent-mcp/src/protocol/models.rs:15-24 | a new request is a JSON-RPC "2.0" request carrying the given id, method and params |
| McpModels.EncodeRequest | crates/agent-mcp/src/protocol/models.rs:6-13 | a request serializes with jsonrpc, id and method, and has a params key exactly when it has params |
| McpModels.DecodeRequest | crates/agent-mcp/src/protocol/models.rs:6-13 | a decoded request has a u64 id and the method named in the message |
| McpModels.RequestRoundTrip | crates/agent-mcp/src/protocol/models.rs:6-13 | decoding a serialized request with a u64 id gives it back |
| McpModels.NewRequestWithoutParams | crates/agent-mcp/src/protocol/models.rs:181-188 | a request built without params serializes to exactly jsonrpc "2.0", id and method |
| McpModels.EncodeRpcError | crates/agent-mcp/src/protocol/models.rs:36-42 | an error object serializes its code and message |
| McpModels.DecodeRpcError | crates/agent-mcp/src/protocol/models.rs:36-42 | an error object decodes exactly when it has an i32 code and a string message |
| McpModels.EncodeResponse | crates/agent-mcp/src/protocol/models.rs:26-34 | a response has a result key exactly when it has a result, and an error key exactly when it has an error |
| McpModels.DecodeResponse | crates/agent-mcp/src/protocol/models.rs:26-34 | a response needs jsonrpc and a u64 id; result and error may be absent, and the result is whatever was sent |
| McpModels.ResponseRoundTrip | crates/agent-mcp/src/protocol/models.rs:26-42 | decoding a serialized well-formed response gives it back |
| McpModels.InvalidRequestResponse | crates/agent-mcp/src/protocol/models.rs:200-211 | the -32600 "Invalid Request" error response decodes with no result and that error |
| McpModels.EncodeNotification | crates/agent-mcp/src/protocol/models.rs:44-50 | a notification has no id, and a params key exactly when it has params |
| McpModels.DecodeNotification | crates/agent-mcp/src/protocol/models.rs:44-50 | a notification decodes exactly when it has jsonrpc and method strings, keeping its method and params |
| McpModels.NotificationRoundTrip | crates/agent-mcp/src/protocol/models.rs:44-50 | decoding a serialized notification gives it back, and it never decodes as a response |
| McpModels.DefaultInitializeRequest | crates/agent-mcp/src/protocol/models.rs:63-74 | the default initialize request speaks protocol 2024-11-05 as bamboo-agent with empty client capabilities |
| McpModels.EncodeInitializeRequest | crates/agent-mcp/src/protocol/models.rs:54-61 | an initialize request serializes to exactly protocolVersion, capabilities and clientInfo, in camelCase |
| McpModels.DefaultInitializeParams | crates/agent-mcp/src/protocol/models.rs:229-235 | the default initialize params carry protocolVersion 2024-11-05, empty capabilities and client name bamboo-agent |
| McpModels.DecodeImplementation | crates/agent-mcp/src/protocol/models.rs:129-133 | an implementation needs a string name and version |
| McpModels.DecodePrompts | crates/agent-mcp/src/protocol/models.rs:110-114 | the prompts capability needs a boolean listChanged |
| McpModels.DecodeResources | crates/agent-mcp/src/protocol/models.rs:116-121 | the resources capability needs boolean subscribe and listChanged |
| McpModels.DecodeTools | crates/agent-mcp/src/protocol/models.rs:123-127 | the tools capability needs a boolean listChanged |
| McpModels.DecodeServerCapabilities | crates/agent-mcp/src/protocol/models.rs:95-108 | a value that is not an object is refused; in an object every capability is optional, decodes exactly when each present one is well formed, and is taken from its own key |
| McpModels.NullCapabilitiesRefused | crates/agent-mcp/src/protocol/models.rs:79-84 | an `initialize` answer with `"capabilities": null` is refused, the field being required |
| McpModels.DecodeInitializeResult | crates/agent-mcp/src/protocol/models.rs:76-85 | an initialize result keeps the protocolVersion sent and decodes serverInfo as an implementation |
| McpModels.MinimalInitializeResult | crates/agent-mcp/src/protocol/models.rs:237-251 | a result with version, empty capabilities and server info decodes with no capabilities and no instructions |
| McpModels.DecodeToolInfoAsWritten | crates/agent-mcp/src/protocol/models.rs:144-150 | a tool needs a string name and description; its schema is read from the snake_case key input_schema |
| McpModels.DecodeToolInfo | crates/agent-mcp/src/protocol/models.rs:144-150 | a tool needs a string name and description; its schema is read from the protocol's key inputSchema |
| McpModels.ToolInfoSchemaLost | crates/agent-mcp/src/protocol/models.rs:144-150 | a tool sent with an inputSchema decodes without a schema as written, and with it once corrected |
| McpModels.DecodeToolList | crates/agent-mcp/src/protocol/models.rs:139-142 | a tool list needs a tools array and decodes it one for one, in order, with the corrected schema key of ## Findings |
| McpModels.EncodeToolCallRequest | crates/agent-mcp/src/protocol/models.rs:153-158 | a tool call carries its name, and its arguments exactly when it has some |
| McpModels.DecodeToolCallResult | crates/agent-mcp/src/protocol/models.rs:160-166 | a tool result needs a content array, decoded one for one; isError is the flag sent, and false when absent |
| McpModels.EmptyToolCallResult | crates/agent-mcp/src/protocol/models.rs:164-165 | a result with empty content and no isError is an empty success |
| GeminiController.ResolveOrDefault | crates/web_service/src/controllers/gemini_controller.rs:35-46 | a resolved mapping is used as is; when resolution fails the mapping is empty and the response names the requested model |
| GeminiController.ModelOverride | crates/web_service/src/controllers/gemini_controller.rs:66-70 | the provider gets no model override exactly when the mapped model is empty, and the mapped model otherwise |
| GeminiController.FailedLookupUsesDefault | crates/web_service/src/controllers/gemini_controller.rs:35-70 | a failed mapping lookup leaves the provider on its default model |
| GeminiController.StopAt | crates/web_service/src/controllers/gemini_controller.rs:83-96 | the stream is read up to its first error or Done chunk, and no further |
| GeminiController.FoldMeaning | crates/web_service/src/controllers/gemini_controller.rs:80-96 | collecting a stream fails with "Stream error: " and the first error's text when an error comes before Done; otherwise the text is all tokens before Done in order and the tool calls are the last batch before Done |
| GeminiController.Fold | crates/web_service/src/controllers/gemini_controller.rs:80-96 | the collected text extends the text collected so far; a failure is "Stream error: " and the text of an error item of the stream; a stream without error items never fails |
| GeminiController.CollectStream | crates/web_service/src/controllers/gemini_controller.rs:80-96 | the collecting loop computes exactly the fold of the stream |
| GeminiController.ArgsOf | crates/web_service/src/controllers/gemini_controller.rs:117-121 | tool-call arguments that do not parse become an empty object; parsed arguments are used as they are |
| GeminiController.BuildParts | crates/web_service/src/controllers/gemini_controller.rs:98-131 | the response parts are the collected text (empty text when there is nothing at all) followed by one function-call part per tool call, and the text part is dropped when empty and there are tool calls |
| GeminiController.ConvertMessages | crates/web_service/src/controllers/gemini_controller.rs:329-341 | every message converts in order, or the conversion fails with "Failed to convert message: " and the error of the first message that fails to convert |
| GeminiController.GenerateContent | crates/web_service/src/controllers/gemini_controller.rs:28-146 | conversion and provider errors are passed on ("Provider error: "); a failing stream fails the request; otherwise one model candidate with finish reason STOP and the parts built from the collected stream |
| GeminiController.TextThenCallParts | crates/web_service/src/controllers/gemini_controller.rs:98-131 | text followed by one tool call gives exactly a text part and then a function-call part |
| GeminiController.CallsWithoutText | crates/web_service/src/controllers/gemini_controller.rs:98-131 | with tool calls and no text every part is a function call, and no calls give no parts |
| GeminiController.CallEvents | crates/web_service/src/controllers/gemini_controller.rs:230-264 | a batch of tool calls is streamed as one event per call, each a model candidate with that single function-call part and no finish reason |
| GeminiController.StreamEvents | crates/web_service/src/controllers/gemini_controller.rs:200-292 | every streamed event is a single model candidate, and every event before the last carries no finish reason |
| GeminiController.StreamEndsAtDone | crates/web_service/src/controllers/gemini_controller.rs:266-279 | the stream ends with the final STOP chunk at the first Done: nothing after Done is streamed |
| GeminiController.CallEventsCarryNoText | crates/web_service/src/controllers/gemini_controller.rs:230-264 | tool-call events carry no text |
| GeminiController.StreamAgreesWithFold | crates/web_service/src/controllers/gemini_controller.rs:80-292 | the text streamed chunk by chunk is exactly the text the non-streaming endpoint collects from the same stream |
| GeminiController.SchemaOfDeclaration | crates/web_service/src/controllers/gemini_controller.rs:352-360 | a declaration becomes a function schema with its name and parameters, and an empty description when it has none |
| GeminiController.Flattened | crates/web_service/src/controllers/gemini_controller.rs:343-368 | every flattened schema is a function schema |
| GeminiController.AppendDeclarations | crates/web_service/src/controllers/gemini_controller.rs:351-362 | the inner loop appends one schema per declaration, in order |
| GeminiController.ConvertGeminiTools | crates/web_service/src/controllers/gemini_controller.rs:343-368 | no tools give no schemas; otherwise the schemas of all declarations of all tools, in order |
| GeminiController.ModelEntry | crates/web_service/src/controllers/gemini_controller.rs:311-319 | a model is listed under the name "models/" followed by its name, and displayed under its own name |
| GeminiController.ListModels | crates/web_service/src/controllers/gemini_controller.rs:298-326 | a provider error becomes "Failed to list models: " and its text; otherwise one entry per model, in order, each the full `ModelEntry` of that model (its `models/` name, its display name and the two generation methods) |
| GeminiController.ModelNameRoundTrip | crates/web_service/src/controllers/gemini_controller.rs:313 | stripping "models/" from a listed name gives the model's name back |
| CommandController.WorkflowName | crates/web_service/src/controllers/command_controller.rs:136-146 | a file names a workflow only when it is a non-empty stem followed by ".md", and the workflow is named by that stem |
| CommandController.EntryStep | crates/web_service/src/controllers/command_controller.rs:131-173 | an unreadable entry fails the listing with its message; a non-Markdown file is skipped; a Markdown file fails on unreadable metadata and otherwise adds the workflow command of its stem, file name and size |
| CommandController.WorkflowCommands | crates/web_service/src/controllers/command_controller.rs:131-175 | the listing has at most one command per directory entry |
| CommandController.WorkflowCommandsExact | crates/web_service/src/controllers/command_controller.rs:131-175 | the listing succeeds exactly when no entry fails, and then holds exactly the commands of the Markdown entries in directory order; otherwise it fails with the first failing entry's error |
| CommandController.WorkflowCommandsShape | crates/web_service/src/controllers/command_controller.rs:131-175 | every listed command is a workflow command, and every failure is an internal error |
| CommandController.PrependStep | crates/web_service/src/controllers/command_controller.rs:131-173 | reading one more entry skips it, fails the listing with its error, or appends its command, as the loop does |
| CommandController.WorkflowListing | crates/web_service/src/controllers/command_controller.rs:123-176 | a directory that cannot be created or read fails with an internal error naming the step; otherwise the listing is that of its entries |
| CommandController.ListWorkflowsAsCommands | crates/web_service/src/controllers/command_controller.rs:123-176 | the entry loop computes exactly the workflow listing |
| CommandController.SkillToCommand | crates/web_service/src/controllers/command_controller.rs:178-194 | a skill becomes a "skill" command with id "skill-" and the skill's id, named by its id, shown by its name, with its category and tags |
| CommandController.McpCommand | crates/web_service/src/controllers/command_controller.rs:201-216 | an alias becomes a command exactly when its tool is known: id "mcp-", server, "-", original name, named by its alias, type "mcp", category "MCP Tools" |
| CommandController.McpCommands | crates/web_service/src/controllers/command_controller.rs:196-220 | the MCP commands are the aliases whose tools are known, each an "mcp" command; every known alias's command is present and every command comes from a known alias; when every tool is known there is one per alias, in order |
| CommandController.McpCommandsSplit | crates/web_service/src/controllers/command_controller.rs:196-220 | the commands of two runs of aliases are those of the first run followed by those of the second |
| CommandController.McpCommandsOne | crates/web_service/src/controllers/command_controller.rs:200-217 | an alias whose tool is unknown contributes nothing; a known one contributes exactly its command |
| CommandController.InsertByName | crates/web_service/src/controllers/command_controller.rs:73 | inserting a command into a name-sorted list keeps it sorted and adds exactly that command |
| CommandController.SortByName | crates/web_service/src/controllers/command_controller.rs:73 | the commands come out sorted by name and are a permutation of the input |
| CommandController.ListCommands | crates/web_service/src/controllers/command_controller.rs:37-79 | the response holds workflows (none if their listing fails), then skills and MCP tools, sorted by name, and its total is their count |
| CommandController.TypedIdTellsType | crates/web_service/src/controllers/command_controller.rs:160-208 | a command's id prefix tells its type: workflow-, skill- or mcp- |
| CommandController.IdTellsType | crates/web_service/src/controllers/command_controller.rs:37-79 | every listed command's id prefix tells its type |
| CommandController.GetCommand | crates/web_service/src/controllers/command_controller.rs:81-121 | a missing workflow file is "Workflow {id} not found", a failed read "Failed to read workflow: " and the error, and a read file is returned with its content and name; a skill is returned as the store has it, or "Skill {id} not found: " and the store's error; MCP tools and unknown types are not found |
| CommandController.WorkflowLookupAgreesWithListing | crates/web_service/src/controllers/command_controller.rs:88-160 | a command of the workflow listing comes from a directory entry named after it with ".md", and looking up its name reports the id the listing gave it |
| CommandController.AddedCommandNamed | crates/web_service/src/controllers/command_controller.rs:137-170 | a command an entry adds is named after the entry's ".md" file and has the workflow id |
| CommandController.WorkflowContentId | crates/web_service/src/controllers/command_controller.rs:88-105 | a workflow's content reports "workflow-" and its name as id |
| CommandController.WorkflowNameOfFile | crates/web_service/src/controllers/command_controller.rs:137-148 | a non-empty name with the ".md" extension is listed under that name |
| BambooPaths.BambooDir | crates/chat_core/src/paths.rs:4-10 | the data directory is ".bamboo" under HOME, else under USERPROFILE, else under the temp directory; the desktop app's own copy (src-tauri/src/lib.rs:85-91) is the same function |
| BambooPaths.ChildOfDataDir | crates/chat_core/src/paths.rs:12-47 | every file and directory of the layout sits directly under the data directory, with its own name |
| BambooPaths.DataDirChild | crates/chat_core/src/paths.rs:12-47 | a plain name under the data directory is the directory, one separator and the name, and its file name is that name |
| BambooPaths.ConfigJsonPath | crates/chat_core/src/paths.rs:12-15 | the config file is ".bamboo/config.json" |
| BambooPaths.KeywordMaskingJsonPath | crates/chat_core/src/paths.rs:17-20 | the keyword masking file is ".bamboo/keyword_masking.json" |
| BambooPaths.WorkflowsDir | crates/chat_core/src/paths.rs:22-25 | the workflows directory is ".bamboo/workflows" |
| BambooPaths.AnthropicModelMappingPath | crates/chat_core/src/paths.rs:27-30 | the Anthropic model mapping is ".bamboo/anthropic-model-mapping.json" |
| BambooPaths.GeminiModelMappingPath | crates/chat_core/src/paths.rs:32-35 | the Gemini model mapping is ".bamboo/gemini-model-mapping.json" |
| BambooPaths.SessionsDir | crates/chat_core/src/paths.rs:44-47 | the sessions directory is ".bamboo/sessions" |
| BambooPaths.SessionsDirUnderBamboo | crates/chat_core/src/paths.rs:44-47 | the sessions directory is ".bamboo/sessions" |
| BambooPaths.SessionFileExamples | crates/chat_core/src/paths.rs:72-77 | .json and .jsonl files are sessions, but config, keyword, model-mapping and mcp files and other extensions are not |
| BambooPaths.IsSessionFile | crates/chat_core/src/paths.rs:72-77 | none of the layout's configuration files (config, keyword masking, the two model mappings) counts as a session file |
| BambooPaths.Moves | crates/chat_core/src/paths.rs:68-93 | only session files whose destination does not exist and whose rename succeeds are moved |
| BambooPaths.MovesExactly | crates/chat_core/src/paths.rs:68-93 | a file is moved exactly when it is listed, is a session file, has no copy in sessions/ and its rename succeeds; none is moved twice |
| BambooPaths.MigrateSessionFiles | crates/chat_core/src/paths.rs:51-96 | a failure to create sessions/ is returned; an unreadable data directory moves nothing and succeeds; otherwise exactly the eligible files move into sessions/ |
| BambooPaths.LoadConfigJson | crates/chat_core/src/paths.rs:98-106 | a missing file, a failed read and a failed parse each give their own message; otherwise the parsed value |
| ReadFileTool.ExpandPath | crates/agent-tools/src/tools/read_file.rs:14-22 | a path starting "~/" is resolved under the home directory when there is one; every other path is kept |
| ReadFileTool.ExpandUnderHome | crates/agent-tools/src/tools/read_file.rs:15-19 | an expanded "~/" path starts with the home directory and ends with the rest of the path |
| ReadFileTool.ExpandPathIdempotent | crates/agent-tools/src/tools/read_file.rs:15-22 | expanding an expanded path changes nothing |
| ReadFileTool.ReadFile | crates/agent-tools/src/tools/read_file.rs:24-37 | a path containing ".." after expansion is refused; otherwise the file's content, or "Failed to read file" with the path and the cause |
| ReadFileTool.Execute | crates/agent-tools/src/tools/read_file.rs:69-86 | a missing path is an argument error; otherwise the tool succeeds exactly when the read does, with the content shown as Markdown, and reports the read's error otherwise |
| ReadFileTool.SuccessReadsOnlySafePaths | crates/agent-tools/src/tools/read_file.rs:24-86 | a successful read returns the file's content from a path without "..", and a path with ".." is refused without reading anything |
| ReadFileTool.TraversalRefused | crates/agent-tools/src/tools/read_file.rs:113-124 | the path "/etc/../etc/passwd" is refused |
| ModelConfig.DefaultModel | crates/web_service/src/model_config_helper.rs:9-57 | copilot uses the configured model or "gpt-4o"; openai, anthropic and gemini need their section and its model, failing with the provider's own message; any other provider is unknown |
| ModelConfig.DefaultModelSource | crates/web_service/src/model_config_helper.rs:9-57 | a default model always comes from the configuration, or is copilot's built-in default |
| ModelConfig.DefaultModelIgnoresOtherSections | crates/web_service/src/model_config_helper.rs:9-57 | the default model depends only on the selected provider's own settings |
| ModelConfig.DefaultModelFailsOnlyWhenUnconfigured | crates/web_service/src/model_config_helper.rs:9-57 | the lookup fails only for an unknown provider or a missing section or model |
| McpModels.InitializedNotification | crates/agent-mcp/src/protocol/client.rs:193-200 | after the handshake the client sends a JSON-RPC "2.0" notification "notifications/initialized" without params |

## Left out

- Network I/O: the MCP transports (stdio and SSE), the LLM provider clients and the HTTP send of `fetch_models_from_api`. What the transport or the provider answers is an input of the model: a send outcome, a response, a chunk stream or a handshake result.
- Concurrency: tasks, `RwLock`/`Mutex`, atomics, `DashMap` and the oneshot and mpsc channels. The registry and the pending-request table are sequential maps. The message-handler task is a loop over the messages that arrive while a request waits. Emitted events are an appended log, so interleavings of concurrent calls are not modelled.
- Foreign functions are parameters: encryption and decryption, JSON text parsing and serialisation, the heuristic token counter, `Message::from_provider`, UUID generation, the clock, environment reads and the home directory. Nothing is assumed about them beyond what each lemma states in its `requires`.
- The file system: reading and writing `config.json`, writing, reading and deleting artifact files (`retrieve_artifact`, `delete_artifact`), directory scans and the renames of `migrate_session_files`. Reads, the artifact store and the renames are modelled by their outcomes, passed as inputs. `save_config_json` and `ensure_bamboo_dir` are plain file writes and are not modelled. The failures of the other writes are not modelled, as the next lines say.
- SetBambooConfig: the `create_dir_all` and `write` failures (settings_controller.rs:212, 232) are not modelled; the member returns the config that would be written.
- SetProxyAuth: the `create_dir_all` and `write` failures (settings_controller.rs:260, 287) and the `reload_provider` error after the write (290-292) are not modelled; the member returns the config that would be written.
- UpdateProviderConfig: the `create_dir_all` and `write` failures (settings_controller.rs:530, 594) and the responses after a successful write, 400 when the reloaded config is invalid and 500 when the provider fails to reload (602-618), are not modelled; the provider validation and reload are other crates' code.
- GetProviderConfig: the failure of the `write` that saves a migrated config (settings_controller.rs:452) is not modelled; the member says when the save happens and what it holds, and returns the response that follows a successful save.
- TauriApp.MarkSetupIncomplete: the failure of `write_config_json` (lib.rs:171, 185, 191) is not modelled; the member returns the config that would be written.
- TauriApp.SetProxyConfig: the failure of `write_config_json` (lib.rs:250) is not modelled; the member returns the config that would be written, or the error that comes before the write.
- Whitespace is ASCII whitespace (`Strings.IsWs`), while Rust's `trim` strips every Unicode White_Space character. So ChatHandler.NonBlank, the blank-model check of ChatHandler.ChatState.Handle, the blank-username test of SettingsController.SetProxyAuth and the trimming of TauriApp.SetProxyConfig treat a value such as a lone U+3000 ideographic space as non-blank, where the source treats it as blank.
- Floating point: the `f64` character budget of `truncate_to_token_limit` is the integer `⌊7·t/2⌋`, which equals the truncated `3.5·t` for every token count. The `f64` size estimate for large artifacts is not modelled.
- Strings are sequences of characters, each standing for one byte. Rust slices `String`s by byte, and a cut inside a multi-byte UTF-8 character panics. That panic is not modelled.
- Integer widths: counters, timeouts and backoffs are unbounded. The `u64` overflow of `current_backoff * 2` and the `u32` overflow of `restart_count` are not modelled. Range checks are modelled where serde performs them, for `u64` ids and `i32` error codes.
- `send_request` can also fail while serialising the request before anything is sent. Serialisation is a total function here, so that path does not exist in the model.
- The health-check task's timer and the periodic polling of the desktop shell are not modelled. `McpManager.McpServerManager.HealthCheck` models one round of the check.
- Bootstrap and glue are not modelled: the Tauri `run`/`setup`/window handling, the binaries' `main` functions, logging and the route tables.
- `ToolIndex` (alias registration) and the skill store are other crates' code and are collaborators. The only parts modelled are how their results are used.
- `McpManager.McpServerManager.IsServerRunning` is the membership test itself, so it has no contract of its own. `ListServers` and `GetServerInfo` state the same membership.
- Cloning an `McpError` and comparing displays is immediate for Dafny values, so no member states it.
- `TodoList.ParseItem`: the order of `depends_on` is stated only when every entry is a string. Otherwise the contract says only that each kept id came from a string entry.
- `McpClient.ProtocolClient.Register`: the serialised request is logged in `sent` before the send outcome is known. A failed send therefore still shows up in `sent`.
- `CommandController.SortByName`: the contract states sorted and a permutation, but not the stability of `sort_by` among commands with equal names.
- serde's sequence form for structs: serde_json also accepts a struct written as a JSON array of its fields in declaration order (for example `["user","pass"]` for a proxy auth). The decoders (`TauriApp.DecodeProxyAuth`, the `McpConfigs` and `McpModels` decoders) accept only the object form that the application and MCP servers write.

## Findings

| source | as written | input that shows it | evidently intended | confidence | as-written member | corrected member |
|---|---|---|---|---|---|---|
| crates/web_service/src/controllers/settings_controller.rs:405-408 | the root-model migration indexes `providers[provider]` as an object, and `provider_config["model"] = …` panics when the entry is a string | `{"model":"gpt-4","provider":"openai","providers":{"openai":"sk-legacy"}}` | leave a non-object provider entry, and the root `model`, untouched | high, not executed | SettingsController.MigrateRootModelAsWritten, SettingsController.MigrateRootModelPanics | SettingsController.MigrateRootModel |
| crates/web_service/src/controllers/settings_controller.rs:423-445 | the `headless_auth` migration writes into `providers.copilot` by index, which panics when that entry is not an object | `{"headless_auth":true,"providers":{"copilot":true}}` | leave a non-object copilot entry, and the root `headless_auth`, untouched | high, not executed | SettingsController.MigrateHeadlessAuthAsWritten, SettingsController.MigrateHeadlessAuthPanics | SettingsController.MigrateHeadlessAuth |
| crates/agent-mcp/src/protocol/models.rs:144-150 | `McpToolInfo` has no camelCase rename, so its schema is read from `input_schema`, while MCP servers send `inputSchema` (as the module's own test at 304-318 does) | `{"name":"t","description":"d","inputSchema":{"type":"object"}}` | the tool's input schema is kept | high, not executed | McpModels.DecodeToolInfoAsWritten, McpModels.ToolInfoSchemaLost | McpModels.DecodeToolInfo |
| crates/agent-mcp/src/protocol/client.rs:143-150 | the pending entry is inserted before `transport.send`, and the `?` on a failed send returns without removing it | any request whose send fails | a failed send leaves no pending entry behind | high, not executed | McpClient.ProtocolClient.SendRequestAsWritten | McpClient.ProtocolClient.SendRequest |
| crates/agent-mcp/src/manager.rs:547-551 | a successful reconnect replaces the server's tools (653-657) but does not update `tool_count`, unlike `start_server` and `refresh_tools` | a server that had 2 tools and comes back with 3 | `tool_count` equals the number of tools after a reconnect | low, not executed | McpManager.RecoveredRuntimeAsWritten, McpManager.ToolCountStale | McpManager.RecoveredRuntime |
